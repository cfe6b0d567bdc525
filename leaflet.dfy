/**
 * The part of a Leaflet map instance that the components drive. The map's own
 * reaction to a request (animating the view, computing bounds) belongs to the
 * library; here a map records the view requests it receives, in order, and
 * holds its current zoom and the set of layers on it.
 */
module Leaflet {
  datatype LatLng = LatLng(lat: real, lng: real)

  /** What `layer.getBounds()` returns for a boundary feature. */
  datatype LatLngBounds = LatLngBounds(southWest: LatLng, northEast: LatLng)

  /** A call that moves the map's view. */
  datatype MapRequest =
    | SetView(center: LatLng, zoom: int)
    | FitBounds(bounds: LatLngBounds)

  /** Identity of a layer object added to a map. */
  datatype LayerId = LayerId(stamp: nat)

  /** Identity of a marker's Leaflet element (`ref.leafletElement`). */
  datatype MarkerHandle = MarkerHandle(stamp: nat)

  class LeafletMap {
    var requests: seq<MapRequest>
    var zoom: int
    var layers: set<LayerId>

    constructor (zoom: int, layers: set<LayerId>)
      ensures this.requests == [] && this.zoom == zoom && this.layers == layers
    {
      this.requests := [];
      this.zoom := zoom;
      this.layers := layers;
    }

    /** `map.getZoom()`. */
    function GetZoom(): int
      reads this
    {
      zoom
    }

    /** `map.setView(center, zoom)`. */
    method SetView(center: LatLng, zoom: int)
      modifies this`requests
      ensures requests == old(requests) + [MapRequest.SetView(center, zoom)]
    {
      requests := requests + [MapRequest.SetView(center, zoom)];
    }

    /** `map.fitBounds(bounds)`. */
    method FitBounds(bounds: LatLngBounds)
      modifies this`requests
      ensures requests == old(requests) + [MapRequest.FitBounds(bounds)]
    {
      requests := requests + [MapRequest.FitBounds(bounds)];
    }

    /** `map.removeLayer(layer)`; removing a layer that is not on the map does nothing. */
    method RemoveLayer(layer: LayerId)
      modifies this`layers
      ensures layers == old(layers) - {layer}
    {
      layers := layers - {layer};
    }
  }
}
