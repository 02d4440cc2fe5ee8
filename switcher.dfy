/** The control `L.Control.MiniMapLayerSwitcher` as an object: its layer list,
    switch state, expand/collapse layout and minimap synchronisation, with the
    primary map it is added to. */
module Switcher {
  import opened Wrappers
  import opened Registry
  import opened MapEngine
  import opened Layout
  import opened Switching

  /** How many z-indices registering `base` hands out. */
  function ZIndexCount(base: seq<(string, Layer)>, autoZIndex: bool): (n: nat) {
    if base == [] then 0
    else ZIndexCount(base[..|base| - 1], autoZIndex) + (if autoZIndex && base[|base| - 1].1.canSetZIndex then 1 else 0)
  }

  /** The z-index each main layer was given through `setZIndex`, by stamp: the
      k-th layer of `base` that has `setZIndex` gets k. */
  function ZIndexes(base: seq<(string, Layer)>, autoZIndex: bool): (z: map<LayerId, int>) {
    if base == [] then map[]
    else
      var n := |base| - 1;
      var layer := base[n].1;
      if autoZIndex && layer.canSetZIndex
      then ZIndexes(base[..n], autoZIndex)[layer.stamp := ZIndexCount(base, autoZIndex)]
      else ZIndexes(base[..n], autoZIndex)
  }

  /** Every layer with `setZIndex` gets a z-index when `autoZIndex` is on, none
      does when it is off, and the values run from 1 to the counter. */
  lemma {:induction false} ZIndexesInRange(base: seq<(string, Layer)>, autoZIndex: bool)
    ensures !autoZIndex ==> ZIndexes(base, autoZIndex) == map[]
    ensures forall k :: 0 <= k < |base| && autoZIndex && base[k].1.canSetZIndex ==>
              base[k].1.stamp in ZIndexes(base, autoZIndex)
    ensures forall id :: id in ZIndexes(base, autoZIndex) ==>
              1 <= ZIndexes(base, autoZIndex)[id] <= ZIndexCount(base, autoZIndex)
  {
    if base != [] {
      var n := |base| - 1;
      ZIndexesInRange(base[..n], autoZIndex);
      forall k | 0 <= k < n ensures base[..n][k] == base[k] {
      }
    }
  }

  /** Registering one more base layer: the counter and the z-indices grow by
      that layer's share. */
  lemma RegisterStep(base: seq<(string, Layer)>, autoZIndex: bool, i: nat)
    requires i < |base|
    ensures var given := autoZIndex && base[i].1.canSetZIndex;
            ZIndexCount(base[..i + 1], autoZIndex) == ZIndexCount(base[..i], autoZIndex) + (if given then 1 else 0) &&
            ZIndexes(base[..i + 1], autoZIndex) ==
              if given then ZIndexes(base[..i], autoZIndex)[base[i].1.stamp := ZIndexCount(base[..i + 1], autoZIndex)]
              else ZIndexes(base[..i], autoZIndex)
  {
    assert base[..i + 1][..i] == base[..i];
  }

  /** What `_render` leaves behind, from the switch state `before` and the
      container's visibility `hiddenBefore`: with no layers, a hidden control and
      an unchanged state; otherwise the initial switch and its outcome. */
  ghost predicate Rendered(before: SwitchState, hiddenBefore: bool, after: SwitchState, hiddenAfter: bool,
                           outcome: Outcome<Failure>)
  {
    if before.layers == [] then outcome == Pass && hiddenAfter && after == before
    else hiddenAfter == hiddenBefore && (outcome, after) == InitialSwitch(before)
  }

  class MiniMapLayerSwitcher {
    const options: Options
    const mainMap: PrimaryMap

    var layers: seq<LayerRecord>
    var miniMaps: map<LayerId, MiniMap>
    var lastZIndex: int
    /** The value each main layer was given through `setZIndex`, by stamp. */
    var zIndexes: map<LayerId, int>
    /** `addTo` has run (the container exists and the minimaps are made). */
    var added: bool
    /** The container is hidden (`display: none`). */
    var hidden: bool
    var active: Option<LayerId>
    var suggested: Option<LayerId>
    var mainReady: bool
    /** The container carries the `expanded` class. */
    var expanded: bool
    /** `style.left` of each minimap container, by layer id. */
    var left: map<LayerId, int>
    /** `style.width` of the control's container. */
    var width: int
    /** Every `setView` call made on a minimap, in order. */
    var views: seq<ViewUpdate>

    ghost predicate Covered()
      reads this`layers, this`miniMaps
    {
      forall r :: r in layers ==> r.id in miniMaps
    }

    ghost predicate Valid()
      reads this`layers, this`added, this`miniMaps, this`suggested
    {
      StampedIds(layers) &&
      (added ==> Covered() && (layers != [] ==> suggested.Some? && HasId(layers, suggested.value)))
    }

    function State(): (st: SwitchState)
      reads this`layers, this`active, this`suggested, mainMap`attached, mainMap`fired
    {
      SwitchState(layers, active, suggested, mainMap.attached, mainMap.fired)
    }

    /** `_hasMultipleLayers`: true as soon as one layer is registered. */
    function HasMultipleLayers(): (r: bool)
      reads this`layers
      ensures r <==> layers != []
      ensures |layers| == 1 ==> r
    {
      |layers| > 0
    }

    /** The guard of `_updateMiniMapPosition`. */
    predicate SyncEnabled()
      reads this`mainReady, this`layers
    {
      mainReady && HasMultipleLayers()
    }

    /** `initialize`: registers the base layers in their given order. */
    constructor (mainMap: PrimaryMap, baseLayers: seq<(string, Layer)>, options: Options)
      ensures Valid() && !added && !hidden && !mainReady && !expanded
      ensures this.mainMap == mainMap && this.options == options
      ensures |layers| == |baseLayers|
      ensures forall i :: 0 <= i < |baseLayers| ==> layers[i] == NewRecord(baseLayers[i].1, baseLayers[i].0)
      ensures lastZIndex == ZIndexCount(baseLayers, options.autoZIndex)
      ensures zIndexes == ZIndexes(baseLayers, options.autoZIndex)
      ensures active == None && suggested == None
      ensures miniMaps == map[] && left == map[] && width == 0 && views == []
    {
      this.mainMap := mainMap;
      this.options := options;
      layers := [];
      miniMaps := map[];
      lastZIndex := 0;
      zIndexes := map[];
      added, hidden, mainReady, expanded := false, false, false, false;
      active, suggested := None, None;
      left, width, views := map[], 0, [];
      new;
      var i := 0;
      while i < |baseLayers|
        modifies this`layers, this`lastZIndex, this`zIndexes
        invariant 0 <= i <= |baseLayers|
        invariant Valid()
        invariant |layers| == i
        invariant forall j :: 0 <= j < i ==> layers[j] == NewRecord(baseLayers[j].1, baseLayers[j].0)
        invariant lastZIndex == ZIndexCount(baseLayers[..i], options.autoZIndex)
        invariant zIndexes == ZIndexes(baseLayers[..i], options.autoZIndex)
      {
        RegisterStep(baseLayers, options.autoZIndex, i);
        AddLayer(baseLayers[i].1, baseLayers[i].0);
        i := i + 1;
      }
      assert baseLayers[..i] == baseLayers;
    }

    /** `_addLayer`: appends one record; with `autoZIndex` and a layer that has
        `setZIndex`, the counter goes up by one and the layer gets the new value. */
    method AddLayer(layer: Layer, name: string)
      requires Valid() && !added
      modifies this`layers, this`lastZIndex, this`zIndexes
      ensures Valid()
      ensures layers == old(layers) + [NewRecord(layer, name)]
      ensures if options.autoZIndex && layer.canSetZIndex
              then lastZIndex == old(lastZIndex) + 1 && zIndexes == old(zIndexes)[layer.stamp := lastZIndex]
              else lastZIndex == old(lastZIndex) && zIndexes == old(zIndexes)
    {
      layers := layers + [NewRecord(layer, name)];
      if options.autoZIndex && layer.canSetZIndex {
        lastZIndex := lastZIndex + 1;
        zIndexes := zIndexes[layer.stamp := lastZIndex];
      }
    }

    /** `_forEachLayer`: calls back on the records in order and stops after the
        first callback that answers `false` (here: `stop` holds). Returns how many
        records were visited. */
    method ForEachLayer(stop: LayerRecord -> bool) returns (visited: nat)
      ensures visited <= |layers|
      ensures forall j :: 0 <= j < visited - 1 ==> !stop(layers[j])
      ensures visited < |layers| ==> 0 < visited && stop(layers[visited - 1])
    {
      visited := 0;
      while visited < |layers|
        invariant visited <= |layers|
        invariant forall j :: 0 <= j < visited ==> !stop(layers[j])
      {
        visited := visited + 1;
        if stop(layers[visited - 1]) {
          return;
        }
      }
    }

    /** `_getInitialMainMapLayerId`: two passes of `_forEachLayer`, the first for a
        layer already on the primary map, the second for the first layer. */
    method GetInitialMainMapLayerId() returns (initialLayerId: Option<LayerId>)
      ensures initialLayerId == InitialMainMapLayerId(layers, mainMap.attached)
    {
      var attached := mainMap.attached;
      var n := ForEachLayer((r: LayerRecord) => r.mainLayer.stamp in attached);
      initialLayerId := None;
      if 0 < n && mainMap.HasLayer(layers[n - 1].mainLayer) {
        initialLayerId := Some(layers[n - 1].id);
      }
      // stamps are never 0, so the truthiness test is a presence test
      if initialLayerId.Some? {
        return;
      }
      n := ForEachLayer((r: LayerRecord) => true);
      if 0 < n {
        initialLayerId := Some(layers[n - 1].id);
      }
    }

    /** `_getInitialMiniMapLayerId`: the first id that is not the given one. */
    method GetInitialMiniMapLayerId(initialMapLayer: Option<LayerId>) returns (initialLayerId: Option<LayerId>)
      ensures initialLayerId == InitialMiniMapLayerId(layers, initialMapLayer)
    {
      var n := ForEachLayer((r: LayerRecord) => Some(r.id) != initialMapLayer);
      initialLayerId := None;
      if 0 < n && Some(layers[n - 1].id) != initialMapLayer {
        initialLayerId := Some(layers[n - 1].id);
      }
    }

    /** `_moveLayerToBack`: splices the first record with the given record's id out
        of the list and pushes it on the end. */
    method MoveLayerToBack(activeLayer: LayerRecord)
      modifies this`layers
      ensures layers == MovedToBack(old(layers), activeLayer.id)
    {
      var layerCount := |layers|;
      var i := 0;
      while i < layerCount
        invariant 0 <= i <= layerCount == |layers|
        invariant layers == old(layers)
        invariant forall j :: 0 <= j < i ==> layers[j].id != activeLayer.id
      {
        if layers[i].id == activeLayer.id {
          layers := layers[..i] + layers[i + 1..] + [layers[i]];
          return;
        }
        i := i + 1;
      }
    }

    /** `_switchLayer` (the class toggling on minimap containers left out). */
    method SwitchLayer(newActiveLayerId: LayerId) returns (outcome: Outcome<Failure>)
      requires StampedIds(layers) && Covered()
      modifies this`layers, this`active, this`suggested, mainMap`attached
      ensures StampedIds(layers) && Covered()
      ensures (outcome, State()) == Switch(old(State()), newActiveLayerId)
    {
      ghost var before := State();
      var lastActiveLayer := LastActiveLayer(layers, active);
      var newActiveLayer := FindLayer(layers, newActiveLayerId);
      if newActiveLayer.None? {
        return Fail(NewLayerNotFound);
      }
      MoveLayerToBack(newActiveLayer.value);
      MovedToBackSameRecords(before.layers, newActiveLayerId);
      suggested := Some(layers[0].id);
      active := Some(newActiveLayerId);
      if lastActiveLayer.None? {
        return Fail(PreviousLayerNotFound);
      }
      mainMap.RemoveLayer(lastActiveLayer.value.mainLayer);
      mainMap.AddLayer(newActiveLayer.value.mainLayer);
      outcome := Pass;
      assert mainMap.attached == before.attached - {lastActiveLayer.value.mainLayer.stamp} + {newActiveLayer.value.mainLayer.stamp};
    }

    /** `_onMiniMapClicked` for the minimap of `clickedLayerId` (the DOM lookup of
        the clicked container and the `notransition` reflow left out). */
    method OnMiniMapClicked(clickedLayerId: LayerId) returns (outcome: Outcome<Failure>)
      requires Valid() && added
      modifies this`layers, this`active, this`suggested, mainMap`attached, mainMap`fired
      ensures Valid()
      ensures (outcome, State()) == Click(old(State()), old(expanded), clickedLayerId)
    {
      if !expanded {
        return Pass;
      }
      if Some(clickedLayerId) == active {
        return Pass;
      }
      var clickedMainMapLayer := FindLayer(layers, clickedLayerId);
      outcome := SwitchLayer(clickedLayerId);
      if outcome.Fail? {
        return;
      }
      mainMap.Fire(BaseLayerChanged(clickedMainMapLayer.value.mainLayer));
    }

    /** The minimap dictionary is `before` plus one minimap per record of `s`,
        with the primary map's zoom range shifted by the offset. */
    ghost predicate MiniMapsRendered(before: map<LayerId, MiniMap>, s: seq<LayerRecord>)
      reads this`miniMaps, mainMap`minZoom, mainMap`maxZoom
    {
      miniMaps == WithMiniMaps(before, s, mainMap.minZoom + options.miniMapZoomOffset,
                               mainMap.maxZoom + options.miniMapZoomOffset)
    }

    /** Lines 80-82 of `_render`: `_renderMiniMap` for each record, each of which
        stores a minimap in `_miniMaps` showing the record's copy, with the primary
        map's zoom range shifted by the offset (the DOM it builds left out). */
    method RenderMiniMaps()
      modifies this`miniMaps
      ensures Covered()
      ensures MiniMapsRendered(old(miniMaps), layers)
    {
      var minZoom := mainMap.minZoom + options.miniMapZoomOffset;
      var maxZoom := mainMap.maxZoom + options.miniMapZoomOffset;
      var i := 0;
      while i < |layers|
        invariant 0 <= i <= |layers|
        invariant miniMaps == WithMiniMaps(old(miniMaps), layers[..i], minZoom, maxZoom)
      {
        assert layers[..i + 1][..i] == layers[..i];
        miniMaps := miniMaps[layers[i].id := MiniMap(layers[i].miniLayer, minZoom, maxZoom)];
        i := i + 1;
      }
      assert layers[..i] == layers;
      WithMiniMapsKeys(old(miniMaps), layers, minZoom, maxZoom);
      IdsCover(layers);
    }

    /** Lines 84-97 of `_render`: hide the control when there are no layers;
        otherwise seed the active id with the minimap choice and switch to the
        primary map's choice. */
    method ShowInitialLayer() returns (outcome: Outcome<Failure>)
      requires StampedIds(layers) && Covered()
      modifies this`hidden, this`layers, this`active, this`suggested, mainMap`attached
      ensures StampedIds(layers) && Covered()
      ensures Rendered(old(State()), old(hidden), State(), hidden, outcome)
      ensures layers != [] ==> suggested.Some? && HasId(layers, suggested.value)
    {
      if !HasMultipleLayers() {
        hidden := true;
        return Pass;
      }
      ghost var before := State();
      var initialActiveLayerId := GetInitialMainMapLayerId();
      var initialActiveMiniMapLayerId := GetInitialMiniMapLayerId(initialActiveLayerId);
      active := initialActiveMiniMapLayerId;
      assert State() == before.(active := InitialMiniMapLayerId(before.layers, initialActiveLayerId));
      outcome := SwitchLayer(initialActiveLayerId.value);
    }

    /** `_render` (lines 80-97): the minimaps, then the initial layer. */
    method Render() returns (outcome: Outcome<Failure>)
      requires StampedIds(layers)
      modifies this`miniMaps, this`hidden, this`layers, this`active, this`suggested, mainMap`attached
      ensures StampedIds(layers) && Covered()
      ensures MiniMapsRendered(old(miniMaps), old(layers))
      ensures Rendered(old(State()), old(hidden), State(), hidden, outcome)
      ensures layers != [] ==> suggested.Some? && HasId(layers, suggested.value)
    {
      RenderMiniMaps();
      outcome := ShowInitialLayer();
    }

    /** `_onMapReady`. */
    method OnMapReady()
      modifies this`mainReady
      ensures mainReady
    {
      mainReady := true;
    }

    /** `_updateMiniMapPosition`: unless the primary map is ready and a layer is
        registered, nothing; otherwise the minimap of `layerId` is set to the
        primary map's center at its zoom plus the offset. */
    method UpdateMiniMapPosition(layerId: Option<LayerId>)
      requires SyncEnabled() ==> layerId.Some? && layerId.value in miniMaps
      modifies this`views
      ensures views == old(views) +
                if SyncEnabled()
                then [ViewUpdate(layerId.value, mainMap.center, mainMap.zoom + options.miniMapZoomOffset)]
                else []
    {
      if !mainReady || !HasMultipleLayers() {
        return;
      }
      var center := mainMap.center;
      var zoom := mainMap.zoom + options.miniMapZoomOffset;
      views := views + [ViewUpdate(layerId.value, center, zoom)];
    }

    /** The `setView` calls `_updateMiniMaps` makes: none before the primary map
        is ready or without layers, every minimap when expanded, else only the
        suggested one. */
    function PendingViews(): (calls: seq<ViewUpdate>)
      reads this`mainReady, this`layers, this`expanded, this`suggested, mainMap`center, mainMap`zoom
    {
      if !SyncEnabled() then []
      else if expanded then SyncAll(layers, mainMap.center, mainMap.zoom + options.miniMapZoomOffset)
      else if suggested.Some? then [ViewUpdate(suggested.value, mainMap.center, mainMap.zoom + options.miniMapZoomOffset)]
      else []
    }

    /** `_updateMiniMaps` (also what a `move` of the primary map runs). */
    method UpdateMiniMaps()
      requires Valid() && added
      modifies this`views
      ensures views == old(views) + PendingViews()
    {
      var suggestedLayerId := suggested;
      if expanded {
        var i := 0;
        while i < |layers|
          invariant 0 <= i <= |layers|
          invariant views == old(views) +
                      if SyncEnabled() then SyncAll(layers[..i], mainMap.center, mainMap.zoom + options.miniMapZoomOffset)
                      else []
        {
          assert layers[..i + 1][..i] == layers[..i];
          assert layers[i] in layers;
          UpdateMiniMapPosition(Some(layers[i].id));
          i := i + 1;
        }
        assert layers[..i] == layers;
      } else {
        if SyncEnabled() {
          ghost var j :| 0 <= j < |layers| && layers[j].id == suggestedLayerId.value;
          assert layers[j] in layers;
        }
        UpdateMiniMapPosition(suggestedLayerId);
      }
    }

    /** Lines 315-328 of `_animateMiniMaps`: the `_forEachLayer` pass that
        synchronises every minimap and gives it its `left` offset, side by side
        when expanding, at 0 when collapsing. Returns the `mapsShown` count. */
    method PlaceMiniMaps(expand: bool) returns (mapsShown: nat)
      requires Covered()
      modifies this`left, this`views
      ensures mapsShown == if expand then |layers| else 0
      ensures left == Offsets(old(left), layers, if expand then options.miniMapWidth + options.miniMapMargin else 0)
      ensures views == old(views) +
                if SyncEnabled() then SyncAll(layers, mainMap.center, mainMap.zoom + options.miniMapZoomOffset) else []
    {
      mapsShown := 0;
      var mapWidth := options.miniMapWidth;
      var mapMargin := options.miniMapMargin;
      var records := layers;
      ghost var step := if expand then mapWidth + mapMargin else 0;
      ghost var synced := SyncEnabled();
      ghost var center, zoom := mainMap.center, mainMap.zoom + options.miniMapZoomOffset;
      var i := 0;
      while i < |records|
        invariant 0 <= i <= |records|
        invariant mapsShown == if expand then i else 0
        invariant left == Offsets(old(left), records[..i], step)
        invariant views == old(views) + if synced then SyncAll(records[..i], center, zoom) else []
      {
        var layerId := records[i].id;
        OffsetsSnoc(old(left), records, step, i);
        SyncAllSnoc(old(views), records, center, zoom, i);
        assert records[i] in layers;
        UpdateMiniMapPosition(Some(layerId));
        if expand {
          left := left[layerId := mapsShown * (mapWidth + mapMargin)];
          mapsShown := mapsShown + 1;
        } else {
          left := left[layerId := 0];
        }
        i := i + 1;
      }
      assert records[..i] == records;
    }

    /** `_animateMiniMaps(expand)`: nothing when already in that state; otherwise
        every minimap is synchronised, the minimaps are laid out side by side
        (expand) or stacked at 0 (collapse), and the container's width and
        `expanded` flag follow. */
    method AnimateMiniMaps(expand: bool)
      requires Valid() && added
      modifies this`left, this`width, this`expanded, this`views
      ensures Valid()
      ensures old(expanded) == expand ==>
                left == old(left) && width == old(width) && expanded == old(expanded) && views == old(views)
      ensures old(expanded) != expand ==>
                expanded == expand &&
                left == Offsets(old(left), layers, if expand then options.miniMapWidth + options.miniMapMargin else 0) &&
                width == (if expand then ExpandedWidth(|layers|, options.miniMapWidth, options.miniMapMargin) else 0) &&
                views == old(views) +
                  if SyncEnabled() then SyncAll(layers, mainMap.center, mainMap.zoom + options.miniMapZoomOffset) else []
    {
      var mapWidth := options.miniMapWidth;
      var mapMargin := options.miniMapMargin;
      if expanded == expand {
        return;
      }
      var mapsShown := PlaceMiniMaps(expand);
      if expand {
        width := mapsShown * (mapWidth + mapMargin) - mapMargin;
        expanded := true;
      } else {
        width := 0;
        expanded := false;
      }
    }

    /** `_toggleMiniMaps`: expand when collapsed, collapse when expanded. */
    method ToggleMiniMaps()
      requires Valid() && added
      modifies this`left, this`width, this`expanded, this`views
      ensures Valid()
      ensures expanded == !old(expanded)
      ensures left == Offsets(old(left), layers, if expanded then options.miniMapWidth + options.miniMapMargin else 0)
      ensures width == if expanded then ExpandedWidth(|layers|, options.miniMapWidth, options.miniMapMargin) else 0
      ensures views == old(views) +
                if SyncEnabled() then SyncAll(layers, mainMap.center, mainMap.zoom + options.miniMapZoomOffset) else []
    {
      AnimateMiniMaps(!expanded);
    }

    /** `onAdd` as `addTo` reaches it (lines 44-52): binds the ready callback,
        which runs at once on a loaded map, then renders. */
    method Attach() returns (outcome: Outcome<Failure>)
      requires Valid() && !added
      modifies this`added, this`mainReady, this`miniMaps, this`hidden, this`layers, this`active, this`suggested,
               mainMap`attached
      ensures Valid() && added
      ensures mainReady == (old(mainReady) || mainMap.loaded)
      ensures MiniMapsRendered(old(miniMaps), old(layers))
      ensures Rendered(old(State()), old(hidden), State(), hidden, outcome)
    {
      added := true;
      if mainMap.loaded {
        OnMapReady();
      }
      outcome := Render();
    }

    /** `addTo`: attaches and renders the control and, unless rendering threw,
        synchronises the minimaps. */
    method AddTo() returns (outcome: Outcome<Failure>)
      requires Valid() && !added
      modifies this`added, this`mainReady, this`miniMaps, this`hidden, this`layers, this`active, this`suggested,
               this`views, mainMap`attached
      ensures Valid() && added
      ensures mainReady == (old(mainReady) || mainMap.loaded)
      ensures MiniMapsRendered(old(miniMaps), old(layers))
      ensures Rendered(old(State()), old(hidden), State(), hidden, outcome)
      ensures outcome.Fail? ==> views == old(views)
      ensures outcome.Pass? ==> views == old(views) + PendingViews()
    {
      outcome := Attach();
      ghost var attached, wasHidden := State(), hidden;
      if outcome.Pass? {
        UpdateMiniMaps();
      }
      assert State() == attached && hidden == wasHidden;
    }
  }
}
