# Weather map components: decision rules in Dafny

This project models the decision logic inside two React/Leaflet views of a
Thai weather-map front end:

- `WeatherMapCanvas` (react_marker_cluster.js), a choropleth view that groups
  station markers into clusters. Each cluster icon is coloured by a seasonal
  representative temperature and sized by its child-marker count.
- `WeatherHeatMap` (react_heatmap.js), a heat-intensity view.

Both views fetch station observations and keep only those from the last 24
hours. Both fit the map to the boundary feature of a selected region or
province. Both pick a map height from the viewport width bucket, and both replace
the whole view with an error message once a fetch fails. Both also define a
zoom table by width bucket (`setZoomMap`), but the code never calls it: the
map and `setView` take the `zoom` prop.

Modules:

- `Wrappers`: `Option`, standing for JavaScript's `null`.
- `Seqs`: `filter`, and a scan that emits zero or more items per element in order, with their list laws proved once for any test or step.
- `Viewport`: Material-UI's width buckets, `isWidthDown`/`isWidthUp` and the zoom table.
- `Leaflet`: a map handle. It logs the `setView`/`fitBounds` requests it receives, in order, and holds its zoom and its set of layers.
- `Observations`: the observation record, the `'-'`→`'/'` datetime rewrite and the recency filter.
- `Boundary`: boundary features, JavaScript `toString()` against `===`, the highlight styles and the fit-bounds scan.
- `MarkerCluster` and `Heatmap`: one module per component. Each component's stateful parts are a class with a map handle and a state record.

Assumptions and readings of the source:

- Timestamps are integers in milliseconds. The cutoff (`now` minus one day) is a parameter.
- Parsing a normalised datetime is a parameter `parse: string -> Option<int>`. `None` stands for an Invalid Date: its time is NaN, and `cutoff < NaN` is false, so such a row is dropped.
- The current month is a parameter.
- `isWidthDown`/`isWidthUp` are taken with Material-UI's documented inclusive default on the order xs < sm < md < lg < xl. The library itself is not part of this model.
- `deepOrange[700]` is Material-UI's `#e64a19`.
- The source has mangled spots, read by their evident intent:
  - the `en(` continuations are `.then(`;
  - the unbound `lat`, `long`, `temperature` in the heatmap's point push are fields of the current row;
  - the heatmap's `result.data.data !== null` guard is a null check on the resolved rows. As written, when the body is an array `result.data` is undefined, so the guard throws at react_heatmap.js:141 and every load ends in the `.catch` branch, with the error shown;
  - `this.Layer`, which the heatmap constructor never creates, is a reference to the temperature layer group. As written, `this.Layer` is undefined, so at zoom 4 or below `handleZoom` throws at react_heatmap.js:235 and removes nothing.
- Behaviours of the code that a reader might not expect:
  - The cluster view resets the view only when the id becomes `''` from a non-empty id.
  - The heatmap view resets on every update with an empty id, but only when its boundary ref is non-null.
  - The cluster view uses a height table of 750/750/700/550. The heatmap uses 710/710/700/550.
- The thresholds at 40, 35, 18, 16 and 8 are strict (`>`). The Thai Meteorological Department criteria quoted in react_heatmap.js put each threshold value in the warmer class. The quoted criteria name no class for 23.0 to 34.9; the model reads that range as cool, as the code's default does. On that reading `TmdDivergence` proves that the two agree everywhere except those five values, where the code's class is one colder.
- `getRegionStyle` compares `properties.code === regionId` with no conversion. The viewport scan compares `code.toString()`. So a region whose code is a number can be fitted but is never outlined (`Heatmap.RegionStyleIgnoresNumericCodes`, `Boundary.NumericCodeExample`).
- `getData` builds its query suffix from `this.state.regionId`, which only the constructor sets. The fetch shown uses a fixed URL, so how the suffix joins that URL is not shown. The model covers the suffix value only.

## Model

| member | source | states |
|---|---|---|
| `MarkerCluster.CreateClusterIcon` | react_marker_cluster.js:83-133 | For a non-empty group, the icon value is one of the member values. In months 11, 12, 1 and 2 it is at most every member; otherwise it is at least every member. The label is that value, the colour class is the threshold class of the value, and the square size follows the member count. |
| `MarkerCluster.Representative` | react_marker_cluster.js:95-96 | The seasonal representative is a member of the group and is its minimum in the cool season and its maximum otherwise. |
| `MarkerCluster.SeqMin` | react_marker_cluster.js:96 | `Math.min` of a non-empty list is an element that is at most every element. |
| `MarkerCluster.SeqMax` | react_marker_cluster.js:96 | `Math.max` of a non-empty list is an element that is at least every element. |
| `MarkerCluster.RepresentativeExamples` | react_marker_cluster.js:95-96 | [10, 25, 5] gives 5 in December and 25 in June. |
| `MarkerCluster.IsCoolSeason` | react_marker_cluster.js:95-96 | Definition: the month is at least 11 or at most 2. `CoolSeasonMonths` states which calendar months pass. |
| `MarkerCluster.CoolSeasonMonths` | react_marker_cluster.js:95-96 | For a month in 1..12, the cool-season test holds exactly for 11, 12, 1 and 2. |
| `MarkerCluster.ClassOf` | react_marker_cluster.js:98-115 | Definition: the strict `>` chain from 40 down to 8, with extra-cold as the last case. Its intervals, rank and monotonicity are the lemmas below. |
| `MarkerCluster.ClassIntervals` | react_marker_cluster.js:98-115 | Each of the six colour classes is exactly one interval: (40, ∞), (35, 40], (18, 35], (16, 18], (8, 16] and (−∞, 8]. |
| `MarkerCluster.ClassRankCountsThresholds` | react_marker_cluster.js:98-115 | The class rank of a value equals the number of thresholds 8, 16, 18, 35, 40 strictly below it. |
| `MarkerCluster.CountBelowMonotone` | react_marker_cluster.js:98-115 | A larger value has at least as many thresholds strictly below it. |
| `MarkerCluster.ClassMonotone` | react_marker_cluster.js:98-115 | The class rank never decreases as the value rises. |
| `MarkerCluster.ClassBoundaries` | react_marker_cluster.js:98-115 | 40.0 gives hot and 40.01 extra-hot. 35.0 gives lite-cold, 18.0 little-cold, 16.0 cold and 8.0 extra-cold. |
| `MarkerCluster.TmdClass` | react_heatmap.js:4-12 | Definition: the Thai Meteorological Department classes with each lower bound inclusive (`>=`). The criteria name no class for 23.0 to 34.9, so that range is put with 18.0 to 22.9 in the cool class, like the code's default. |
| `MarkerCluster.TmdDivergence` | react_heatmap.js:4-12 | The code's strict classes differ from the TMD wording ("from 35.0", "from 40.0", …) exactly at the five threshold values, and there they are one class colder. |
| `MarkerCluster.TmdBoundaryCase` | react_heatmap.js:6-7 | 35.0 is "hot" in the TMD text but lite-cold in the code. 40.0 is "very hot" in the TMD text but hot in the code. |
| `MarkerCluster.CssName` | react_marker_cluster.js:98-115 | Definition: the six `marker-cluster-…` class strings, one per colour class. `CssNameInjective` states that they are distinct. |
| `MarkerCluster.CssNameInjective` | react_marker_cluster.js:98-115 | Distinct colour classes carry distinct CSS class names. |
| `MarkerCluster.SizeFor` | react_marker_cluster.js:117-126 | The icon is 40 px exactly for fewer than 10 members, 50 px exactly for more than 100, and 45 px exactly for 10 to 100. |
| `MarkerCluster.SizeExamples` | react_marker_cluster.js:117-126 | 9 gives 40, 10 gives 45, 100 gives 45 and 101 gives 50. |
| `MarkerCluster.FormatValue` | react_marker_cluster.js:81 | The result is `'-'` exactly when the value is null or undefined. Otherwise it is the value, to be shown with two decimals. |
| `MarkerCluster.QuerySuffix` | react_marker_cluster.js:222-230 | The suffix is empty exactly for an empty id. An id longer than 1 gives `?province_code=`+id, and a length-1 id gives `?region_code_tmd=`+id. |
| `MarkerCluster.QueryRoundTrip` | react_marker_cluster.js:222-230 | The id can be read back from the suffix built from it. |
| `MarkerCluster.QueryInjective` | react_marker_cluster.js:222-230 | Different ids give different suffixes. |
| `MarkerCluster.LoadObservations` | react_marker_cluster.js:240-259 | A null body keeps the spinner on and stores no rows. Otherwise the stored rows are exactly the input rows whose time is strictly after the cutoff, in input order. |
| `MarkerCluster.KeyOf` | react_marker_cluster.js:186-188 | Definition: an id longer than one character selects the province layers and `prov_code`; otherwise the region layers and `code` (also line 199). `MatchesByLength` states which property the test then reads. |
| `MarkerCluster.MatchesByLength` | react_marker_cluster.js:199-208 | For an id longer than one character the scan's test reads `prov_code.toString()`; otherwise it reads `code.toString()`. |
| `MarkerCluster.UpdateRequests` | react_marker_cluster.js:174-214 | The view is reset exactly when the id becomes `''` from a non-empty id. An unchanged id makes no request. A non-empty id only ever fits bounds. |
| `MarkerCluster.UpdateResetsOnClear` | react_marker_cluster.js:178-183 | When the id becomes `''` from a non-empty id, the only request is `setView(location, zoom)`. |
| `MarkerCluster.UpdateIdle` | react_marker_cluster.js:185-194 | An unchanged id, or a null boundary ref for a non-empty id, makes no request. |
| `MarkerCluster.UpdateFitsMatching` | react_marker_cluster.js:185-212 | A changed non-empty id fits once per feature, in scan order. The feature's `prov_code` (id length > 1) or `code` (otherwise) must `toString()` to the id. No view reset happens. |
| `MarkerCluster.UpdateSelectsOneProvince` | react_marker_cluster.js:186-203 | Selecting "10" when exactly one province's `prov_code` is "10" fits to that province's bounds and nothing else. |
| `MarkerCluster.WeatherMapCanvas.DidUpdate` | react_marker_cluster.js:174-214 | The map's request log grows by exactly the requests the update rule prescribes. Nothing else on the map changes. |
| `MarkerCluster.WeatherMapCanvas.ScanLayers` | react_marker_cluster.js:194-212 | The loop over `_layers` appends one `fitBounds` per matching feature, in order. |
| `MarkerCluster.WeatherMapCanvas.FitIfMatches` | react_marker_cluster.js:199-209 | One loop step compares `prov_code` (id length > 1) or `code` after `toString()`. It fits to the feature's bounds exactly on a match. |
| `MarkerCluster.HeightMap` | react_marker_cluster.js:336-349 | xl, lg and md give 750, sm gives 700 and xs gives 550. The height is always one of those three values. |
| `MarkerCluster.MarkerRegistry.constructor` | react_marker_cluster.js:384-386 | The `markers` object, keyed by station id, that `bindMarker` writes into. It starts with no entries. |
| `MarkerCluster.Registered` | react_marker_cluster.js:384-392 | A non-null ref sets `markers[id]` and leaves every other entry unchanged. A null ref leaves the registry as it was. |
| `MarkerCluster.WeatherMapCanvas.BindMarker` | react_marker_cluster.js:384-392 | The shared registry's new contents are the registration of the ref under the id. |
| `MarkerCluster.WeatherMapCanvas.constructor` | react_marker_cluster.js:136-160 | The initial state has no error, no spinner, the width's height and no rows. |
| `MarkerCluster.WeatherMapCanvas.ReceiveData` | react_marker_cluster.js:240-259 | The state takes the loading flag and rows of the resolved body. The error and height do not change. |
| `MarkerCluster.WeatherMapCanvas.FailData` | react_marker_cluster.js:260 | A failed data fetch sets the error and the loading flag and changes nothing else. |
| `MarkerCluster.WeatherMapCanvas.FailBoundary` | react_marker_cluster.js:277 | A failed boundary fetch sets the error and changes nothing else. |
| `MarkerCluster.WeatherMapCanvas.Render` | react_marker_cluster.js:516-526 | A set error yields only its message, whatever rows have loaded. Without an error the view is the map with the spinner flag, the height and the rows. |
| `MarkerCluster.FailedFetchShowsOnlyError` | react_marker_cluster.js:255-260 | After a failed data fetch the view is the error text, whatever the earlier state. |
| `Viewport.IsWidthDown` | react_marker_cluster.js:339 | Definition: the width bucket is at or below the breakpoint (Material-UI's inclusive default). |
| `Viewport.IsWidthUp` | react_marker_cluster.js:339 | Definition: the width bucket is at or above the breakpoint (Material-UI's inclusive default). |
| `Viewport.ZoomMap` | react_marker_cluster.js:351-358 | Zoom is 5 for sm and xs and 6 otherwise. The heatmap's `setZoomMap` (react_heatmap.js:183-190) is the same. Neither component calls it. |
| `Observations.NormalizeDate` | react_heatmap.js:147 | The `-`→`/` rewrite keeps the length, turns each `-` into `/`, changes no other character and leaves no `-`. |
| `Observations.NormalizeDateIdempotent` | react_heatmap.js:147 | Rewriting twice is the same as rewriting once. |
| `Seqs.Filter` | react_heatmap.js:145-149 | `Array.prototype.filter` returns no more elements than its input. |
| `Seqs.FilterMember` | react_heatmap.js:145-149 | For any test, an element is in the filtered list exactly when it is in the input and passes the test. |
| `Seqs.FilterAppend` | react_heatmap.js:145-149 | For any test, filtering a concatenation gives the concatenation of the filtered parts. |
| `Seqs.FilterAllPass` | react_heatmap.js:145-149 | When every element passes the test, the filter returns its input. |
| `Seqs.CollectAppend` | react_heatmap.js:107-114 | For any per-element step, scanning a concatenation gives the scans of the parts, in order. |
| `Seqs.CollectSnoc` | react_heatmap.js:107-114 | Handling one more element appends exactly that element's output. |
| `Seqs.CollectNone` | react_heatmap.js:107-114 | When no element produces output, the scan produces none. |
| `Seqs.CollectSingle` | react_heatmap.js:107-114 | When only one element produces output, the scan's output is that element's output. |
| `Observations.IsRecent` | react_marker_cluster.js:247-249 | Definition: the parsed time of the normalised datetime is strictly after the cutoff. An unparseable datetime (NaN) is never recent. |
| `Observations.Recent` | react_marker_cluster.js:246-250 | The filter keeps a row exactly when it is in the input and recent. It is no longer than its input. The heatmap's filter (react_heatmap.js:145-149) is the same. |
| `Seqs.FilterMembers` | react_heatmap.js:145-149 | For any test, membership in the filtered list holds exactly for the input elements that pass, for all elements at once. |
| `Observations.RecentAppend` | react_marker_cluster.js:246-250 | Filtering a concatenation gives the concatenation of the filtered parts, so input order is preserved. |
| `Observations.RecentKeepsAllRecent` | react_marker_cluster.js:246-250 | When every row is recent, the filter returns its input unchanged. |
| `Observations.RecentAtCutoff` | react_marker_cluster.js:248-249 | A row exactly at the cutoff is dropped. A row one second later is kept. |
| `Boundary.NatToString` | react_heatmap.js:110 | The `toString()` of a numeric code is a non-empty string of decimal digits, one digit long exactly below 10. |
| `Boundary.NatToStringRoundTrip` | react_heatmap.js:110 | Reading the printed digits back as a decimal number gives the number itself, so the string spells `n`. |
| `Boundary.Prop.ToString` | react_heatmap.js:110 | A string code prints as itself. A numeric code prints as a non-empty digit string that reads back as the number. |
| `Boundary.Property` | react_marker_cluster.js:200-205 | Definition: the property the scan reads, `code` or `prov_code`, by key. |
| `Boundary.Matches` | react_heatmap.js:110 | Definition: the scan's test, `property.toString() === regionId`, on `code` or `prov_code` by key. |
| `Boundary.FitStep` | react_heatmap.js:109-112 | One scan step makes at most one request. It makes one exactly when the feature matches, and that request fits the feature's bounds. |
| `Boundary.BoundsFits` | react_heatmap.js:111 | One `fitBounds` per feature, to that feature's bounds, in order. |
| `Boundary.CollectFitSteps` | react_heatmap.js:107-114 | Stepping through the layers produces the fits of exactly the matching features, in scan order. |
| `Boundary.FitRequests` | react_heatmap.js:107-114 | The scan's requests are one `fitBounds` for each matching feature, in scan order and nothing else, however many features match. |
| `Boundary.FitRequestsCoverMatches` | react_heatmap.js:107-114 | Every matching feature's bounds are fitted. This is the converse of `FitRequestsAreMatches`. |
| `Boundary.NatToStringInjective` | react_heatmap.js:110 | Distinct numeric codes print differently, so a numeric code matches at most one id. |
| `Boundary.FitRequestsAreMatches` | react_heatmap.js:107-114 | Every request of the scan is a `fitBounds` to the bounds of some matching feature. |
| `Boundary.FitRequestsAppend` | react_heatmap.js:107-114 | Scanning a concatenation gives the scans of the parts, in order. |
| `Boundary.FitRequestsSnoc` | react_heatmap.js:107-114 | Scanning one more layer appends exactly that layer's request, if it matches. |
| `Boundary.FitRequestsNone` | react_heatmap.js:107-114 | With no matching feature, the scan makes no request. |
| `Boundary.FitRequestsUnique` | react_heatmap.js:107-114 | With exactly one matching feature, the scan makes exactly one `fitBounds`, to that feature's bounds. |
| `Boundary.StyleFor` | react_marker_cluster.js:296-334 | A feature is outlined (stroke, weight 2, deep orange) exactly when the id is not '0' and the property strictly equals the id. Every other feature has no stroke. Fill opacity is always 0 and fill colour `#FFF`. |
| `Boundary.RegionStyle` | react_marker_cluster.js:296-314 | A region is outlined exactly when the id is not '0' and `code === id`. Fill opacity is 0. The heatmap's `getRegionStyle` (react_heatmap.js:210-228) is the same function. |
| `Boundary.ProvinceStyle` | react_marker_cluster.js:316-334 | A province is outlined exactly when the id is not '0' and `prov_code === id`. Fill opacity is 0. |
| `Boundary.StyleVersusScan` | react_marker_cluster.js:296-314 | For string codes and ids other than '0', outlining and the scan's match agree. A numeric code is never outlined, yet it is matched by the id it prints as. |
| `Boundary.NumericCodeExample` | react_heatmap.js:109-111 | A region with numeric code 3 is fitted for id "3" but not outlined. |
| `Leaflet.LeafletMap.SetView` | react_marker_cluster.js:180 | `map.setView(location, zoom)` appends exactly that request to the log and changes nothing else. |
| `Leaflet.LeafletMap.FitBounds` | react_marker_cluster.js:202 | `map.fitBounds(bounds)` appends exactly that request to the log and changes nothing else. |
| `Leaflet.LeafletMap.GetZoom` | react_heatmap.js:231 | Definition: the map's current zoom. |
| `Leaflet.LeafletMap.RemoveLayer` | react_heatmap.js:235 | `map.removeLayer(layer)` takes that layer off the map and leaves every other layer; removing an absent layer changes nothing. |
| `Heatmap.QuerySuffix` | react_heatmap.js:124-129 | The suffix is empty exactly for an empty id. Otherwise it is `?region_id=`+id. |
| `Heatmap.QueryRoundTrip` | react_heatmap.js:124-129 | The id can be read back from the suffix built from it. |
| `Heatmap.PointOf` | react_heatmap.js:151-153 | Definition: the `[lat, long, temperature]` triple of a row. |
| `Heatmap.LoadPoints` | react_heatmap.js:139-162 | A null body keeps the spinner on with no points. Otherwise there is exactly one `[lat, long, temperature]` triple per filtered row, in the same order. |
| `Heatmap.UpdateRequests` | react_heatmap.js:90-117 | A null ref makes no request. The view is reset exactly when the ref is non-null and the id is empty. A non-empty id only ever fits bounds. |
| `Heatmap.UpdateResetsWheneverEmpty` | react_heatmap.js:92-102 | With a non-null ref, an empty id resets the view on every update, whatever the previous id was. |
| `Heatmap.UpdateIdle` | react_heatmap.js:92-104 | A null ref, or an unchanged non-empty id, makes no request. |
| `Heatmap.UpdateFitsChanged` | react_heatmap.js:103-114 | With a non-null ref, a changed non-empty id makes exactly the scan's requests by `code.toString()`, whatever number of features match. |
| `Heatmap.UpdateFitsMatching` | react_heatmap.js:104-115 | For a changed id, when exactly one feature's `code.toString()` equals it, that feature's bounds are the only request. |
| `Heatmap.RegionStyleIgnoresNumericCodes` | react_heatmap.js:210-228 | A numeric region code that prints as the id is matched by the scan, but its style is the plain one. |
| `Heatmap.HeightMap` | react_heatmap.js:168-181 | xl, lg and md give 710, sm gives 700 and xs gives 550. The height is always one of those three values. |
| `Heatmap.ZoomedLayers` | react_heatmap.js:230-237 | At zoom 4 or below the temperature layer is gone. No layer is added, and every other layer stays. |
| `Heatmap.LayersAfterZooms` | react_heatmap.js:230-237 | A run of zoom events never adds a layer. |
| `Heatmap.ZoomNeverRestores` | react_heatmap.js:230-237 | After any run of zoom events, the temperature layer is on the map exactly when it was there before and every zoom was above 4. Other layers are untouched. |
| `Heatmap.WeatherHeatMap.HandleZoom` | react_heatmap.js:230-237 | The map's layers become the zoom rule applied to the current zoom. The request log and the zoom do not change. |
| `Heatmap.WeatherHeatMap.DidUpdate` | react_heatmap.js:90-117 | The map's request log grows by exactly the requests the update rule prescribes. |
| `Heatmap.WeatherHeatMap.ScanLayers` | react_heatmap.js:107-114 | The loop over `_layers` appends one `fitBounds` per feature whose `code.toString()` equals the id, in order. |
| `Heatmap.WeatherHeatMap.constructor` | react_heatmap.js:54-77 | The initial state has no error, no spinner, the width's height, no points and radius 20. |
| `Heatmap.WeatherHeatMap.ReceiveData` | react_heatmap.js:139-163 | The state takes the loading flag and the triples of the resolved body. The error, height and radius do not change. |
| `Heatmap.WeatherHeatMap.FailData` | react_heatmap.js:164 | A failed data fetch sets the error and the loading flag and changes nothing else. |
| `Heatmap.WeatherHeatMap.FailBoundary` | react_heatmap.js:207 | A failed boundary fetch sets the error and changes nothing else. |
| `Heatmap.WeatherHeatMap.Render` | react_heatmap.js:290-292 | A set error yields only its message, however many points have loaded. Without an error the view is the map with its heat layer. |

## Left out

- Fetching, Promise chains, `setState` timing, mount flags and lifecycle scheduling are asynchronous I/O. The model covers only the step each `.then`/`.catch` takes on an already-resolved value.
- JSX output, Leaflet, react-leaflet, the marker-cluster and heatmap-layer widgets, `L.divIcon`, tile layers, gesture handling and the heat gradient are UI and foreign libraries. `mapWidget` only records what the components ask of the map.
- `new Date(...)` parsing, `setDate(getDate() - 1)` and time zones depend on the clock and the platform. They are parameters.
- `parseFloat(...).toFixed(2)` is float-to-string formatting. `FormatValue` keeps the value and models only the `'-'` case.
- `mean` (react_marker_cluster.js:85-93) is computed and never used, and it divides by zero on an empty group. Neither it nor `sum` is modelled.
- `MarkerCluster.CreateClusterIcon`: requires a non-empty group. `Math.min()`/`Math.max()` of an empty list give ±Infinity in JavaScript. A cluster always has members.
- `MarkerCluster.CreateClusterIcon`: the child count is taken as the number of child markers. `getChildCount()` and `getAllChildMarkers().length` agree in the marker-cluster library, which is not part of this model.
- Temperatures are reals. A temperature arriving as a string, which JavaScript would coerce or concatenate, is not modelled.
- `Boundary.Prop` holds strings and non-negative integers only. A missing `code`/`prov_code`, on which `toString()` throws, is not modelled. Nor are fractional or negative numeric codes, whose printed form is not modelled.
- `TemperatureStatusColor`, `setIcon`, `eachData` and the per-station markers are left out: their colour source is not shown, and the `lat && long` truthiness test depends on field types that are not shown.
- The duplicated marker lists (react_marker_cluster.js:590-591) are render output built with lodash `orderBy`. Both lists put a marker for every station into the same cluster group, so each station counts twice among a cluster's child markers: a cluster of 5 stations has 10 child markers and gets the 45 px icon. `CreateClusterIcon` is sized by child markers, not by stations.
- The click listener that `bindMarker` attaches (`panTo` on click) is event wiring on a Leaflet object.
- `getRiverStyle`, `handleChart`, `onEachRegionFeature` and the GeoJSON data in state are constant style objects, a modal callback and widget input.
- The map's reaction to `setView`, `fitBounds` and zoom gestures belongs to Leaflet. The model records the requests and takes the zoom as given.
- `MarkerCluster.KeyOf`: `regionId.length` counts UTF-16 code units, while `|regionId|` counts Dafny characters. The two agree for the digit ids the components use.
- `Boundary.NatToString`: `Number.prototype.toString` switches to exponent form from 1e21 up, which `NatToString` does not model. Boundary codes are short digit strings.
- react_highchart_mapchart.js is a Highcharts options object plus a fetch and a suffix of the same shape as above. It is not part of this model.
