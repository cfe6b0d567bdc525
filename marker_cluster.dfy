/**
 * The choropleth / marker-cluster view (`WeatherMapCanvas`): the cluster
 * icon rule, the data query and filter step, the boundary selection on
 * update, the highlight styles, the marker registry, the sizing table and the
 * render guard.
 */
module MarkerCluster {
  import opened Wrappers
  import opened Viewport
  import opened Leaflet
  import opened Observations
  import opened Boundary

  // ---------------------------------------------------------------------
  // Cluster icon
  // ---------------------------------------------------------------------

  /** The six CSS colour classes of a cluster icon, coldest first. */
  datatype ColorClass = ExtraCold | Cold | LittleCold | LiteCold | Hot | ExtraHot

  function ClassRank(c: ColorClass): nat {
    match c
    case ExtraCold => 0
    case Cold => 1
    case LittleCold => 2
    case LiteCold => 3
    case Hot => 4
    case ExtraHot => 5
  }

  /** The CSS class name the icon carries. */
  function CssName(c: ColorClass): string {
    match c
    case ExtraCold => "marker-cluster-extra-cold"
    case Cold => "marker-cluster-cold"
    case LittleCold => "marker-cluster-little-cold"
    case LiteCold => "marker-cluster-lite-cold"
    case Hot => "marker-cluster-hot"
    case ExtraHot => "marker-cluster-extra-hot"
  }

  /** Distinct classes have distinct CSS names. */
  lemma CssNameInjective(c: ColorClass, d: ColorClass)
    requires CssName(c) == CssName(d)
    ensures c == d
  {
  }

  /** The strict thresholds, in increasing order. */
  const Thresholds: seq<real> := [8.0, 16.0, 18.0, 35.0, 40.0]

  /** How many of `ts` lie strictly below `v`. */
  function CountBelow(ts: seq<real>, v: real): nat {
    if ts == [] then 0 else (if ts[0] < v then 1 else 0) + CountBelow(ts[1..], v)
  }

  /** The classification the icon's else-if chain performs (first match wins). */
  function ClassOf(v: real): ColorClass {
    if v > 40.0 then ExtraHot
    else if v > 35.0 then Hot
    else if v > 18.0 then LiteCold
    else if v > 16.0 then LittleCold
    else if v > 8.0 then Cold
    else ExtraCold
  }

  /** A class's rank is the number of thresholds strictly below the value. */
  lemma ClassRankCountsThresholds(v: real)
    ensures ClassRank(ClassOf(v)) == CountBelow(Thresholds, v)
  {
    var t5, t4, t3, t2 := [40.0], [35.0, 40.0], [18.0, 35.0, 40.0], [16.0, 18.0, 35.0, 40.0];
    assert t5[1..] == [] && t4[1..] == t5 && t3[1..] == t4 && t2[1..] == t3 && Thresholds[1..] == t2;
    assert CountBelow(t5, v) == (if 40.0 < v then 1 else 0);
    assert CountBelow(t4, v) == (if 35.0 < v then 1 else 0) + CountBelow(t5, v);
    assert CountBelow(t3, v) == (if 18.0 < v then 1 else 0) + CountBelow(t4, v);
    assert CountBelow(t2, v) == (if 16.0 < v then 1 else 0) + CountBelow(t3, v);
    assert CountBelow(Thresholds, v) == (if 8.0 < v then 1 else 0) + CountBelow(t2, v);
  }

  lemma {:induction false} CountBelowMonotone(ts: seq<real>, v: real, w: real)
    requires v <= w
    ensures CountBelow(ts, v) <= CountBelow(ts, w)
  {
    if ts != [] {
      CountBelowMonotone(ts[1..], v, w);
    }
  }

  /** A warmer value never gets a colder class. */
  lemma ClassMonotone(v: real, w: real)
    requires v <= w
    ensures ClassRank(ClassOf(v)) <= ClassRank(ClassOf(w))
  {
    ClassRankCountsThresholds(v);
    ClassRankCountsThresholds(w);
    CountBelowMonotone(Thresholds, v, w);
  }

  /** The six classes partition the reals into these intervals. */
  lemma ClassIntervals(v: real)
    ensures ClassOf(v) == ExtraHot <==> 40.0 < v
    ensures ClassOf(v) == Hot <==> 35.0 < v <= 40.0
    ensures ClassOf(v) == LiteCold <==> 18.0 < v <= 35.0
    ensures ClassOf(v) == LittleCold <==> 16.0 < v <= 18.0
    ensures ClassOf(v) == Cold <==> 8.0 < v <= 16.0
    ensures ClassOf(v) == ExtraCold <==> v <= 8.0
  {
  }

  /** Values on and just above the thresholds. */
  lemma ClassBoundaries()
    ensures ClassOf(40.0) == Hot && ClassOf(40.01) == ExtraHot
    ensures ClassOf(35.0) == LiteCold && ClassOf(18.0) == LittleCold
    ensures ClassOf(16.0) == Cold && ClassOf(8.0) == ExtraCold
  {
  }

  /**
   * The classes as the Thai Meteorological Department criteria word them
   * ("from 40.0", "35.0 - 39.9", "18.0 - 22.9", "16.0 - 17.9", "8.0 - 15.9",
   * "7.9 and below"): each lower bound belongs to its own class. The quoted
   * criteria name no class for 23.0 - 34.9; like the code's default, this
   * reading puts the whole of 18.0 - 34.9 into the cool class (`LiteCold`).
   */
  function TmdClass(v: real): ColorClass {
    if v >= 40.0 then ExtraHot
    else if v >= 35.0 then Hot
    else if v >= 18.0 then LiteCold
    else if v >= 16.0 then LittleCold
    else if v >= 8.0 then Cold
    else ExtraCold
  }

  /**
   * The code and the TMD wording disagree exactly on the five threshold
   * values, and there the code's class is one colder.
   */
  lemma TmdDivergence(v: real)
    ensures ClassOf(v) != TmdClass(v) <==> v in Thresholds
    ensures ClassOf(v) != TmdClass(v) ==> ClassRank(ClassOf(v)) + 1 == ClassRank(TmdClass(v))
  {
    assert v in Thresholds <==> v == 8.0 || v == 16.0 || v == 18.0 || v == 35.0 || v == 40.0;
  }

  /** 35.0 and 40.0 in particular: hot and very hot in the TMD text, one class lower in the code. */
  lemma TmdBoundaryCase()
    ensures TmdClass(35.0) == Hot && ClassOf(35.0) == LiteCold
    ensures TmdClass(40.0) == ExtraHot && ClassOf(40.0) == Hot
  {
  }

  /** Months 11, 12, 1 and 2 (`currentMonth >= 11 || currentMonth <= 2`). */
  predicate IsCoolSeason(month: int) {
    month >= 11 || month <= 2
  }

  lemma CoolSeasonMonths(month: int)
    requires 1 <= month <= 12
    ensures IsCoolSeason(month) <==> month in {11, 12, 1, 2}
  {
  }

  /** `Math.min(...s)` on a non-empty list. */
  function SeqMin(s: seq<real>): (m: real)
    requires |s| > 0
    ensures m in s
    ensures forall i :: 0 <= i < |s| ==> m <= s[i]
  {
    if |s| == 1 then s[0]
    else
      var rest := SeqMin(s[1..]);
      if s[0] <= rest then s[0] else rest
  }

  /** `Math.max(...s)` on a non-empty list. */
  function SeqMax(s: seq<real>): (m: real)
    requires |s| > 0
    ensures m in s
    ensures forall i :: 0 <= i < |s| ==> s[i] <= m
  {
    if |s| == 1 then s[0]
    else
      var rest := SeqMax(s[1..]);
      if s[0] >= rest then s[0] else rest
  }

  /** The seasonal representative: the minimum in the cool season, the maximum otherwise. */
  function Representative(values: seq<real>, month: int): (v: real)
    requires |values| > 0
    ensures v in values
    ensures IsCoolSeason(month) ==> forall i :: 0 <= i < |values| ==> v <= values[i]
    ensures !IsCoolSeason(month) ==> forall i :: 0 <= i < |values| ==> values[i] <= v
  {
    if IsCoolSeason(month) then SeqMin(values) else SeqMax(values)
  }

  lemma RepresentativeExamples()
    ensures Representative([10.0, 25.0, 5.0], 12) == 5.0
    ensures Representative([10.0, 25.0, 5.0], 6) == 25.0
  {
    var s := [10.0, 25.0, 5.0];
    assert s[1..] == [25.0, 5.0] && s[1..][1..] == [5.0];
  }

  /** Icon side length in pixels for a cluster of `count` members. */
  function SizeFor(count: int): (px: int)
    ensures px == 40 <==> count < 10
    ensures px == 45 <==> 10 <= count <= 100
    ensures px == 50 <==> count > 100
  {
    if count < 10 then 40 else if count > 100 then 50 else 45
  }

  lemma SizeExamples()
    ensures SizeFor(9) == 40 && SizeFor(10) == 45 && SizeFor(100) == 45 && SizeFor(101) == 50
  {
  }

  /** `formatValue`: '-' for null/undefined, otherwise the value to two decimals. */
  datatype Formatted = Dash | TwoDecimals(value: real)

  function FormatValue(value: Option<real>): (f: Formatted)
    ensures f == Dash <==> value == None
    ensures value.Some? ==> f == TwoDecimals(value.value)
  {
    match value
    case None => Dash
    case Some(v) => TwoDecimals(v)
  }

  /** What `L.divIcon` receives: the label's value, the colour class and the square size. */
  datatype ClusterIcon = ClusterIcon(caption: Formatted, value: real, color: ColorClass, width: int, height: int)

  /**
   * `createClusterCustomIcon`: `values` are the `options.value` of the
   * cluster's child markers (so the child count is `|values|`), `month` the
   * current calendar month.
   */
  method CreateClusterIcon(values: seq<real>, month: int) returns (icon: ClusterIcon)
    requires |values| > 0
    ensures icon.value in values
    ensures IsCoolSeason(month) ==> forall i :: 0 <= i < |values| ==> icon.value <= values[i]
    ensures !IsCoolSeason(month) ==> forall i :: 0 <= i < |values| ==> values[i] <= icon.value
    ensures icon.caption == TwoDecimals(icon.value)
    ensures icon.color == ClassOf(icon.value)
    ensures icon.width == icon.height == SizeFor(|values|)
  {
    var dataArray: seq<real> := [];
    for i := 0 to |values|
      invariant dataArray == values[..i]
    {
      dataArray := dataArray + [values[i]];
    }
    assert dataArray == values;
    var value := Representative(dataArray, month);

    var colorClass := LiteCold;
    if value > 40.0 {
      colorClass := ExtraHot;
    } else if value > 35.0 {
      colorClass := Hot;
    } else if value > 18.0 {
      colorClass := LiteCold;
    } else if value > 16.0 {
      colorClass := LittleCold;
    } else if value > 8.0 {
      colorClass := Cold;
    } else if value <= 8.0 {
      colorClass := ExtraCold;
    }

    var x, y := 45, 45;
    if |values| < 10 {
      x, y := 40, 40;
    } else if |values| > 100 {
      x, y := 50, 50;
    }

    icon := ClusterIcon(FormatValue(Some(value)), value, colorClass, x, y);
  }

  // ---------------------------------------------------------------------
  // Data
  // ---------------------------------------------------------------------

  const ProvinceParam := "?province_code="
  const RegionParam := "?region_code_tmd="

  /** The query suffix `getData` builds from the region id. */
  function QuerySuffix(regionId: string): (q: string)
    ensures q == "" <==> regionId == ""
    ensures |regionId| > 1 ==> q == ProvinceParam + regionId
    ensures |regionId| == 1 ==> q == RegionParam + regionId
  {
    if regionId != "" then
      if |regionId| > 1 then ProvinceParam + regionId else RegionParam + regionId
    else ""
  }

  /** Reads the region id back out of a query suffix. */
  function RegionIdOfQuery(q: string): Option<string> {
    if q == "" then Some("")
    else if |ProvinceParam| < |q| && q[..|ProvinceParam|] == ProvinceParam then Some(q[|ProvinceParam|..])
    else if |RegionParam| < |q| && q[..|RegionParam|] == RegionParam then Some(q[|RegionParam|..])
    else None
  }

  /** The suffix determines the id it was built from. */
  lemma QueryRoundTrip(regionId: string)
    ensures RegionIdOfQuery(QuerySuffix(regionId)) == Some(regionId)
  {
    var q := QuerySuffix(regionId);
    if |regionId| > 1 {
      assert q[..|ProvinceParam|] == ProvinceParam;
      assert q[|ProvinceParam|..] == regionId;
    } else if |regionId| == 1 {
      assert q[1] == 'r' != ProvinceParam[1];
      assert q[..|RegionParam|] == RegionParam;
      assert q[|RegionParam|..] == regionId;
    }
  }

  lemma QueryInjective(a: string, b: string)
    requires QuerySuffix(a) == QuerySuffix(b)
    ensures a == b
  {
    QueryRoundTrip(a);
    QueryRoundTrip(b);
  }

  /** The result of the service call once resolved: `None` is a `null` body. */
  datatype Loaded = Loaded(isLoading: bool, datas: seq<Observation>)

  /** The second `.then` step of `getData`. */
  function LoadObservations(result: Option<seq<Observation>>, cutoff: int, parse: string -> Option<int>): (l: Loaded)
    ensures l.isLoading <==> result.None?
    ensures result.None? ==> l.datas == []
    ensures result.Some? ==> forall d :: d in l.datas <==> d in result.value && IsRecent(d, cutoff, parse)
    ensures result.Some? ==> l.datas == Recent(result.value, cutoff, parse)
  {
    match result
    case None => Loaded(true, [])
    case Some(rows) => Loaded(false, Recent(rows, cutoff, parse))
  }

  // ---------------------------------------------------------------------
  // Boundary selection
  // ---------------------------------------------------------------------

  /** A province id is longer than one character, a region id is one character. */
  function KeyOf(regionId: string): Key {
    if |regionId| > 1 then ByProvinceCode else ByRegionCode
  }

  /** Which property the scan's test reads, by the id's length. */
  lemma MatchesByLength(f: Feature, regionId: string)
    ensures |regionId| > 1 ==> (Matches(f, KeyOf(regionId), regionId) <==> f.provCode.ToString() == regionId)
    ensures |regionId| <= 1 ==> (Matches(f, KeyOf(regionId), regionId) <==> f.code.ToString() == regionId)
  {
  }

  /**
   * The map requests `componentDidUpdate` makes. `regionRef` and
   * `provinceRef` are the two GeoJSON refs (`None` is a null `current`),
   * each holding its `_layers` in iteration order.
   */
  function UpdateRequests(prevRegionId: string, regionId: string,
                          regionRef: Option<seq<Feature>>, provinceRef: Option<seq<Feature>>,
                          location: LatLng, zoom: int): (rs: seq<MapRequest>)
    ensures SetView(location, zoom) in rs <==> regionId == "" && prevRegionId != ""
    ensures regionId == prevRegionId ==> rs == []
    ensures regionId != "" ==> forall r :: r in rs ==> r.FitBounds?
  {
    if regionId == "" && prevRegionId != "" then [SetView(location, zoom)]
    else
      var mainObj := if |regionId| > 1 then provinceRef else regionRef;
      if mainObj.Some? && regionId != prevRegionId then FitRequests(mainObj.value, KeyOf(regionId), regionId)
      else []
  }

  /** Clearing the selection resets the view and fits nothing. */
  lemma UpdateResetsOnClear(prevRegionId: string, regionRef: Option<seq<Feature>>, provinceRef: Option<seq<Feature>>,
                            location: LatLng, zoom: int)
    requires prevRegionId != ""
    ensures UpdateRequests(prevRegionId, "", regionRef, provinceRef, location, zoom) == [SetView(location, zoom)]
  {
  }

  /** An unchanged id, or a null boundary ref, makes no request. */
  lemma UpdateIdle(prevRegionId: string, regionId: string, regionRef: Option<seq<Feature>>, provinceRef: Option<seq<Feature>>,
                   location: LatLng, zoom: int)
    requires regionId == prevRegionId || (regionId != "" && (if |regionId| > 1 then provinceRef else regionRef).None?)
    ensures UpdateRequests(prevRegionId, regionId, regionRef, provinceRef, location, zoom) == []
  {
  }

  /**
   * Otherwise a changed id fits the map once per matching feature of the
   * province layers (id longer than 1) or the region layers, in scan order,
   * and never resets the view.
   */
  lemma UpdateFitsMatching(prevRegionId: string, regionId: string, regionRef: Option<seq<Feature>>, provinceRef: Option<seq<Feature>>,
                           location: LatLng, zoom: int)
    requires regionId != "" && regionId != prevRegionId
    ensures var layers := if |regionId| > 1 then provinceRef else regionRef;
            var rs := UpdateRequests(prevRegionId, regionId, regionRef, provinceRef, location, zoom);
            && (layers.None? ==> rs == [])
            && (layers.Some? && |regionId| > 1 ==> rs == FitRequests(layers.value, ByProvinceCode, regionId))
            && (layers.Some? && |regionId| == 1 ==> rs == FitRequests(layers.value, ByRegionCode, regionId))
            && forall r :: r in rs ==> r.FitBounds?
  {
    var layers := if |regionId| > 1 then provinceRef else regionRef;
    if layers.Some? {
      FitRequestsAreMatches(layers.value, KeyOf(regionId), regionId);
    }
  }

  /**
   * Selecting province "10" when exactly one province feature has that
   * `prov_code` fits the map to that feature's bounds and nothing else.
   */
  lemma UpdateSelectsOneProvince(prevRegionId: string, regionRef: Option<seq<Feature>>, provinces: seq<Feature>,
                                 location: LatLng, zoom: int, j: nat)
    requires prevRegionId != "10"
    requires j < |provinces| && provinces[j].provCode.ToString() == "10"
    requires forall i :: 0 <= i < |provinces| && i != j ==> provinces[i].provCode.ToString() != "10"
    ensures UpdateRequests(prevRegionId, "10", regionRef, Some(provinces), location, zoom) == [FitBounds(provinces[j].bounds)]
  {
    FitRequestsUnique(provinces, ByProvinceCode, "10", j);
  }

  // ---------------------------------------------------------------------
  // Sizing
  // ---------------------------------------------------------------------

  /** `setHeightMap` of this component. */
  function HeightMap(width: Width): (h: int)
    ensures h == 750 || h == 700 || h == 550
    ensures h == (match width case Xl => 750 case Lg => 750 case Md => 750 case Sm => 700 case Xs => 550)
  {
    if IsWidthDown(Xl, width) && IsWidthUp(Lg, width) then 750
    else if IsWidthDown(Lg, width) && IsWidthUp(Md, width) then 750
    else if IsWidthDown(Md, width) && IsWidthUp(Sm, width) then 700
    else if IsWidthDown(Sm, width) && IsWidthUp(Xs, width) then 550
    else 750
  }

  // ---------------------------------------------------------------------
  // Component state
  // ---------------------------------------------------------------------

  /** The `markers` object the parent passes down, keyed by station id. */
  class MarkerRegistry {
    var entries: map<string, MarkerHandle>

    constructor ()
      ensures entries == map[]
    {
      entries := map[];
    }
  }

  /** The registry after `bindMarker(id)(ref)`; `ref` is `None` for a null ref. */
  function Registered(entries: map<string, MarkerHandle>, id: string, ref: Option<MarkerHandle>): (r: map<string, MarkerHandle>)
    ensures ref.None? ==> r == entries
    ensures ref.Some? ==> id in r && r[id] == ref.value
    ensures forall k :: k != id ==> (k in r <==> k in entries)
    ensures forall k :: k != id && k in entries ==> r[k] == entries[k]
  {
    match ref
    case None => entries
    case Some(m) => entries[id := m]
  }

  datatype CanvasState = CanvasState(
    error: Option<FetchError>,
    isLoading: bool,
    height: int,
    datas: seq<Observation>)

  /** What `render` produces: the error text alone, or the map. */
  datatype CanvasView =
    | ErrorText(message: string)
    | ClusterMap(spinner: bool, height: int, stations: seq<Observation>)

  class WeatherMapCanvas {
    const mapWidget: LeafletMap
    var state: CanvasState

    /** The constructor's initial state; `isLoading` starts undefined, which `=== true` reads as false. */
    constructor (width: Width, mapWidget: LeafletMap)
      ensures this.mapWidget == mapWidget
      ensures state == CanvasState(None, false, HeightMap(width), [])
    {
      this.mapWidget := mapWidget;
      state := CanvasState(None, false, HeightMap(width), []);
    }

    /** `componentDidUpdate(prevProps)`. */
    method DidUpdate(prevRegionId: string, regionId: string, location: LatLng, zoom: int,
                     regionRef: Option<seq<Feature>>, provinceRef: Option<seq<Feature>>)
      modifies mapWidget`requests
      ensures mapWidget.requests == old(mapWidget.requests) + UpdateRequests(prevRegionId, regionId, regionRef, provinceRef, location, zoom)
    {
      if regionId == "" && prevRegionId != "" {
        mapWidget.SetView(location, zoom);
        return;
      }
      var mainObj := regionRef;
      if |regionId| > 1 {
        mainObj := provinceRef;
      }
      if mainObj.Some? && regionId != prevRegionId {
        ScanLayers(mainObj.value, regionId);
      }
    }

    /** The `for (const key in obj)` loop over the boundary layers. */
    method ScanLayers(layers: seq<Feature>, regionId: string)
      modifies mapWidget`requests
      ensures mapWidget.requests == old(mapWidget.requests) + FitRequests(layers, KeyOf(regionId), regionId)
    {
      for i := 0 to |layers|
        invariant mapWidget.requests == old(mapWidget.requests) + FitRequests(layers[..i], KeyOf(regionId), regionId)
      {
        FitRequestsSnoc(layers, i, KeyOf(regionId), regionId);
        FitIfMatches(layers[i], regionId);
      }
      assert layers[..|layers|] == layers;
    }

    /** One step of the loop: compare `prov_code` or `code`, by the id's length, and fit on a match. */
    method FitIfMatches(f: Feature, regionId: string)
      modifies mapWidget`requests
      ensures mapWidget.requests == old(mapWidget.requests) + FitStep(f, KeyOf(regionId), regionId)
    {
      MatchesByLength(f, regionId);
      if |regionId| > 1 {
        var provCode := f.provCode;
        if provCode.ToString() == regionId {
          mapWidget.FitBounds(f.bounds);
        }
      } else {
        var regionCode := f.code;
        if regionCode.ToString() == regionId {
          mapWidget.FitBounds(f.bounds);
        }
      }
    }

    /** The `.then` step of `getData` on a resolved body. */
    method ReceiveData(result: Option<seq<Observation>>, cutoff: int, parse: string -> Option<int>)
      modifies this`state
      ensures var l := LoadObservations(result, cutoff, parse);
              state == old(state).(isLoading := l.isLoading, datas := l.datas)
    {
      var l := LoadObservations(result, cutoff, parse);
      state := state.(isLoading := l.isLoading, datas := l.datas);
    }

    /** The `.catch` of `getData`. */
    method FailData(e: FetchError)
      modifies this`state
      ensures state == old(state).(error := Some(e), isLoading := true)
    {
      state := state.(error := Some(e), isLoading := true);
    }

    /** The `.catch` of the two boundary fetches. */
    method FailBoundary(e: FetchError)
      modifies this`state
      ensures state == old(state).(error := Some(e))
    {
      state := state.(error := Some(e));
    }

    /** `bindMarker(id)(ref)`: records the marker's element under its station id. */
    method BindMarker(markers: MarkerRegistry, id: string, ref: Option<MarkerHandle>)
      modifies markers
      ensures markers.entries == Registered(old(markers.entries), id, ref)
    {
      if ref.Some? {
        markers.entries := markers.entries[id := ref.value];
      }
    }

    /** `render()`: a set error replaces the whole map, whatever data has loaded. */
    function Render(): (v: CanvasView)
      reads this
      ensures state.error.Some? ==> v == ErrorText(state.error.value.message)
      ensures state.error.None? ==> v == ClusterMap(state.isLoading, state.height, state.datas)
    {
      if state.error.Some? then ErrorText(state.error.value.message)
      else ClusterMap(state.isLoading, state.height, state.datas)
    }
  }

  /** After a failed data fetch the view is the error text, by any earlier state. */
  method FailedFetchShowsOnlyError(canvas: WeatherMapCanvas, e: FetchError)
    modifies canvas
    ensures canvas.Render() == ErrorText(e.message)
  {
    canvas.FailData(e);
  }
}
