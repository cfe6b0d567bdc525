/**
 * The heat-intensity view (`WeatherHeatMap`): the data query, the filter and
 * point extraction, the boundary selection on update, the sizing table, the
 * zoom-out layer removal and the render guard. Its `getRegionStyle` is
 * `Boundary.RegionStyle`, written identically in both components.
 */
module Heatmap {
  import opened Wrappers
  import opened Viewport
  import opened Leaflet
  import opened Observations
  import opened Boundary

  // ---------------------------------------------------------------------
  // Data
  // ---------------------------------------------------------------------

  const RegionParam := "?region_id="

  /** The query suffix `getData` builds from the region id. */
  function QuerySuffix(regionId: string): (q: string)
    ensures q == "" <==> regionId == ""
    ensures regionId != "" ==> q == RegionParam + regionId
  {
    if regionId != "" then RegionParam + regionId else ""
  }

  /** Reads the region id back out of a query suffix. */
  function RegionIdOfQuery(q: string): Option<string> {
    if q == "" then Some("")
    else if |RegionParam| < |q| && q[..|RegionParam|] == RegionParam then Some(q[|RegionParam|..])
    else None
  }

  /** The suffix determines the id it was built from. */
  lemma QueryRoundTrip(regionId: string)
    ensures RegionIdOfQuery(QuerySuffix(regionId)) == Some(regionId)
  {
    var q := QuerySuffix(regionId);
    if regionId != "" {
      assert q[..|RegionParam|] == RegionParam;
      assert q[|RegionParam|..] == regionId;
    }
  }

  /** One `[lat, long, temperature]` triple handed to the heatmap layer. */
  datatype HeatPoint = HeatPoint(lat: real, long: real, temperature: Option<real>)

  function PointOf(d: Observation): HeatPoint {
    HeatPoint(d.lat, d.long, d.temperature)
  }

  /**
   * The second `.then` step of `getData`: filter the resolved rows to the
   * last 24 hours and push one triple per kept row into `addressPoints`.
   * `None` is a `null` body, which leaves the spinner on and no points.
   */
  method LoadPoints(result: Option<seq<Observation>>, cutoff: int, parse: string -> Option<int>)
    returns (isLoading: bool, addressPoints: seq<HeatPoint>)
    ensures isLoading <==> result.None?
    ensures result.None? ==> addressPoints == []
    ensures result.Some? ==>
              var kept := Recent(result.value, cutoff, parse);
              && |addressPoints| == |kept|
              && forall i :: 0 <= i < |kept| ==> addressPoints[i] == HeatPoint(kept[i].lat, kept[i].long, kept[i].temperature)
  {
    isLoading := true;
    addressPoints := [];
    if result.Some? {
      var filterDatas := Recent(result.value, cutoff, parse);
      for i := 0 to |filterDatas|
        invariant |addressPoints| == i
        invariant forall j :: 0 <= j < i ==> addressPoints[j] == PointOf(filterDatas[j])
      {
        var row := filterDatas[i];
        addressPoints := addressPoints + [HeatPoint(row.lat, row.long, row.temperature)];
      }
      isLoading := false;
    }
  }

  // ---------------------------------------------------------------------
  // Boundary selection
  // ---------------------------------------------------------------------

  /**
   * The map requests `componentDidUpdate` makes. `regionRef` is the region
   * GeoJSON ref (`None` is a null `current`) with its `_layers` in iteration
   * order; this component compares only `code`, whatever the id's length.
   */
  function UpdateRequests(prevRegionId: string, regionId: string, regionRef: Option<seq<Feature>>,
                          location: LatLng, zoom: int): (rs: seq<MapRequest>)
    ensures regionRef.None? ==> rs == []
    ensures SetView(location, zoom) in rs <==> regionRef.Some? && regionId == ""
    ensures regionId != "" ==> forall r :: r in rs ==> r.FitBounds?
  {
    match regionRef
    case None => []
    case Some(layers) =>
      if regionId == "" then [SetView(location, zoom)]
      else if regionId != prevRegionId then FitRequests(layers, ByRegionCode, regionId)
      else []
  }

  /** With a non-null ref an empty id resets the view on every update, whatever the previous id. */
  lemma UpdateResetsWheneverEmpty(prevRegionId: string, layers: seq<Feature>, location: LatLng, zoom: int)
    ensures UpdateRequests(prevRegionId, "", Some(layers), location, zoom) == [SetView(location, zoom)]
  {
  }

  /** A null ref, or an unchanged non-empty id, makes no request. */
  lemma UpdateIdle(prevRegionId: string, regionId: string, regionRef: Option<seq<Feature>>, location: LatLng, zoom: int)
    requires regionRef.None? || (regionId != "" && regionId == prevRegionId)
    ensures UpdateRequests(prevRegionId, regionId, regionRef, location, zoom) == []
  {
  }

  /**
   * With a non-null ref, a changed non-empty id fits the map once per
   * feature whose `code.toString()` equals it, in scan order.
   */
  lemma UpdateFitsChanged(prevRegionId: string, regionId: string, layers: seq<Feature>, location: LatLng, zoom: int)
    requires regionId != "" && regionId != prevRegionId
    ensures UpdateRequests(prevRegionId, regionId, Some(layers), location, zoom) == FitRequests(layers, ByRegionCode, regionId)
  {
  }

  /** When exactly one feature matches, the requests are that feature's bounds alone. */
  lemma UpdateFitsMatching(prevRegionId: string, regionId: string, layers: seq<Feature>, location: LatLng, zoom: int, j: nat)
    requires regionId != "" && regionId != prevRegionId
    requires j < |layers| && layers[j].code.ToString() == regionId
    requires forall i :: 0 <= i < |layers| && i != j ==> layers[i].code.ToString() != regionId
    ensures UpdateRequests(prevRegionId, regionId, Some(layers), location, zoom) == [FitBounds(layers[j].bounds)]
  {
    FitRequestsUnique(layers, ByRegionCode, regionId, j);
  }

  /**
   * `getRegionStyle` compares `code === regionId` with no conversion, unlike
   * the scan: a region whose code is a number is fitted but never outlined.
   */
  lemma RegionStyleIgnoresNumericCodes(regionId: string, f: Feature)
    requires f.code.Num? && regionId == NatToString(f.code.n) && regionId != "0"
    ensures Matches(f, ByRegionCode, regionId)
    ensures RegionStyle(regionId, f) == Unhighlighted
  {
  }

  // ---------------------------------------------------------------------
  // Sizing and zoom
  // ---------------------------------------------------------------------

  /** `setHeightMap` of this component. */
  function HeightMap(width: Width): (h: int)
    ensures h == 710 || h == 700 || h == 550
    ensures h == (match width case Xl => 710 case Lg => 710 case Md => 710 case Sm => 700 case Xs => 550)
  {
    if IsWidthDown(Xl, width) && IsWidthUp(Lg, width) then 710
    else if IsWidthDown(Lg, width) && IsWidthUp(Md, width) then 710
    else if IsWidthDown(Md, width) && IsWidthUp(Sm, width) then 700
    else if IsWidthDown(Sm, width) && IsWidthUp(Xs, width) then 550
    else 710
  }

  /** The layers on the map after one `handleZoom` at zoom level `zoom`. */
  function ZoomedLayers(layers: set<LayerId>, temperatureLayer: LayerId, zoom: int): (r: set<LayerId>)
    ensures zoom <= 4 ==> temperatureLayer !in r
    ensures zoom > 4 ==> r == layers
    ensures r <= layers
    ensures forall l :: l != temperatureLayer ==> (l in r <==> l in layers)
  {
    if zoom <= 4 then layers - {temperatureLayer} else layers
  }

  /** The layers after a run of zoom-end events at the given levels. */
  function LayersAfterZooms(layers: set<LayerId>, temperatureLayer: LayerId, zooms: seq<int>): (r: set<LayerId>)
    ensures r <= layers
  {
    if zooms == [] then layers
    else LayersAfterZooms(ZoomedLayers(layers, temperatureLayer, zooms[0]), temperatureLayer, zooms[1..])
  }

  /**
   * Nothing ever puts the temperature layer back: it is still on the map
   * after a run of zooms exactly when it was there before and no zoom went
   * to 4 or below; other layers are untouched.
   */
  lemma {:induction false} ZoomNeverRestores(layers: set<LayerId>, temperatureLayer: LayerId, zooms: seq<int>)
    ensures temperatureLayer in LayersAfterZooms(layers, temperatureLayer, zooms)
            <==> temperatureLayer in layers && forall i :: 0 <= i < |zooms| ==> zooms[i] > 4
    ensures forall l :: l != temperatureLayer ==> (l in LayersAfterZooms(layers, temperatureLayer, zooms) <==> l in layers)
  {
    if zooms != [] {
      ZoomNeverRestores(ZoomedLayers(layers, temperatureLayer, zooms[0]), temperatureLayer, zooms[1..]);
      assert forall i :: 1 <= i < |zooms| ==> zooms[i] == zooms[1..][i - 1];
    }
  }

  // ---------------------------------------------------------------------
  // Component state
  // ---------------------------------------------------------------------

  datatype HeatState = HeatState(
    error: Option<FetchError>,
    isLoading: bool,
    height: int,
    addressPoints: seq<HeatPoint>,
    radius: int)

  /** What `render` produces: the error text alone, or the map with its heat layer. */
  datatype HeatView =
    | ErrorText(message: string)
    | HeatLayerMap(spinner: bool, height: int, points: seq<HeatPoint>, radius: int)

  class WeatherHeatMap {
    const mapWidget: LeafletMap
    /** `this.Layer.current`: the layer group holding the heatmap layer. */
    const temperatureLayer: LayerId
    var state: HeatState

    /** The constructor's initial state; `isLoading` starts undefined, which `=== true` reads as false. */
    constructor (width: Width, mapWidget: LeafletMap, temperatureLayer: LayerId)
      ensures this.mapWidget == mapWidget && this.temperatureLayer == temperatureLayer
      ensures state == HeatState(None, false, HeightMap(width), [], 20)
    {
      this.mapWidget := mapWidget;
      this.temperatureLayer := temperatureLayer;
      state := HeatState(None, false, HeightMap(width), [], 20);
    }

    /** `componentDidUpdate(prevProps)`. */
    method DidUpdate(prevRegionId: string, regionId: string, location: LatLng, zoom: int,
                     regionRef: Option<seq<Feature>>)
      modifies mapWidget`requests
      ensures mapWidget.requests == old(mapWidget.requests) + UpdateRequests(prevRegionId, regionId, regionRef, location, zoom)
    {
      if regionRef.Some? {
        var layers := regionRef.value;
        if regionId == "" {
          mapWidget.SetView(location, zoom);
          return;
        }
        if regionId != prevRegionId {
          ScanLayers(layers, regionId);
        }
      }
    }

    /** The `for (const key in obj)` loop over the region layers. */
    method ScanLayers(layers: seq<Feature>, regionId: string)
      modifies mapWidget`requests
      ensures mapWidget.requests == old(mapWidget.requests) + FitRequests(layers, ByRegionCode, regionId)
    {
      for i := 0 to |layers|
        invariant mapWidget.requests == old(mapWidget.requests) + FitRequests(layers[..i], ByRegionCode, regionId)
      {
        FitRequestsSnoc(layers, i, ByRegionCode, regionId);
        var regionCode := layers[i].code;
        if regionCode.ToString() == regionId {
          mapWidget.FitBounds(layers[i].bounds);
        }
      }
      assert layers[..|layers|] == layers;
    }

    /** The `.then` step of `getData` on a resolved body. */
    method ReceiveData(result: Option<seq<Observation>>, cutoff: int, parse: string -> Option<int>)
      modifies this`state
      ensures state.error == old(state).error && state.height == old(state).height && state.radius == old(state).radius
      ensures state.isLoading <==> result.None?
      ensures result.None? ==> state.addressPoints == []
      ensures result.Some? ==>
                var kept := Recent(result.value, cutoff, parse);
                && |state.addressPoints| == |kept|
                && forall i :: 0 <= i < |kept| ==> state.addressPoints[i] == PointOf(kept[i])
    {
      var isLoading, addressPoints := LoadPoints(result, cutoff, parse);
      state := state.(isLoading := isLoading, addressPoints := addressPoints);
    }

    /** The `.catch` of `getData`. */
    method FailData(e: FetchError)
      modifies this`state
      ensures state == old(state).(error := Some(e), isLoading := true)
    {
      state := state.(error := Some(e), isLoading := true);
    }

    /** The `.catch` of the boundary fetches. */
    method FailBoundary(e: FetchError)
      modifies this`state
      ensures state == old(state).(error := Some(e))
    {
      state := state.(error := Some(e));
    }

    /** `handleZoom`: at zoom 4 or below the temperature layer comes off the map. */
    method HandleZoom()
      modifies mapWidget`layers
      ensures mapWidget.layers == ZoomedLayers(old(mapWidget.layers), temperatureLayer, mapWidget.zoom)
    {
      var currentZoom := mapWidget.GetZoom();
      if currentZoom <= 4 {
        mapWidget.RemoveLayer(temperatureLayer);
      }
    }

    /** `render()`: a set error replaces the whole map, whatever data has loaded. */
    function Render(): (v: HeatView)
      reads this
      ensures state.error.Some? ==> v == ErrorText(state.error.value.message)
      ensures state.error.None? ==> v == HeatLayerMap(state.isLoading, state.height, state.addressPoints, state.radius)
    {
      if state.error.Some? then ErrorText(state.error.value.message)
      else HeatLayerMap(state.isLoading, state.height, state.addressPoints, state.radius)
    }
  }
}
