/** The primary Leaflet map, reduced to what the control reads and changes: the
    set of layers on it (Leaflet keys a map's layers by stamp, so `hasLayer`,
    `addLayer` and `removeLayer` act on stamps), whether it has loaded, its view,
    its zoom range, and the events the control fires on it. */
module MapEngine {
  import opened Registry

  /** A geographic position; the control only copies it from map to minimap. */
  datatype LatLng = LatLng(lat: real, lng: real)

  /** `baselayerchanged`, carrying the newly shown main layer. */
  datatype MapEvent = BaseLayerChanged(layer: Layer)

  class PrimaryMap {
    var attached: set<LayerId>
    var loaded: bool
    var center: LatLng
    var zoom: int
    var minZoom: int
    var maxZoom: int
    var fired: seq<MapEvent>

    constructor (attached: set<LayerId>, loaded: bool, center: LatLng, zoom: int, minZoom: int, maxZoom: int)
      ensures this.attached == attached && this.loaded == loaded
      ensures this.center == center && this.zoom == zoom
      ensures this.minZoom == minZoom && this.maxZoom == maxZoom
      ensures fired == []
    {
      this.attached := attached;
      this.loaded := loaded;
      this.center := center;
      this.zoom := zoom;
      this.minZoom := minZoom;
      this.maxZoom := maxZoom;
      fired := [];
    }

    predicate HasLayer(layer: Layer)
      reads this`attached
    {
      layer.stamp in attached
    }

    /** Adding a layer that is already on the map changes nothing. */
    method AddLayer(layer: Layer)
      modifies this`attached
      ensures attached == old(attached) + {layer.stamp}
      ensures HasLayer(layer)
    {
      attached := attached + {layer.stamp};
    }

    /** Removing a layer that is not on the map changes nothing. */
    method RemoveLayer(layer: Layer)
      modifies this`attached
      ensures attached == old(attached) - {layer.stamp}
      ensures !HasLayer(layer)
    {
      attached := attached - {layer.stamp};
    }

    method Fire(event: MapEvent)
      modifies this`fired
      ensures fired == old(fired) + [event]
    {
      fired := fired + [event];
    }
  }
}
