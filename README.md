# MiniMapLayerSwitcher in Dafny

This project models the layer-switching engine of `L.Control.MiniMapLayerSwitcher`. That is a Leaflet control which shows one small preview map (a "minimap") per base layer. Clicking a minimap makes its layer the one shown on the primary map. The model covers:

- the control's ordered list of layer records (`_layers`) and how records are registered. Each record is a main layer plus a copy of it for the minimap, and registration can hand out z-indices;
- the lookup by id (`_findLayer`);
- the recency reorder (`_moveLayerToBack`): a layer switched to goes to the back of the list, and the record then at the front becomes the "suggested" layer;
- the choice of the initial main-map and minimap layers;
- the switch itself (`_switchLayer`): it removes the previous main layer from the primary map and adds the new one;
- the click handler, which fires `baselayerchanged`;
- rendering (`_render`): it creates one minimap per record, hides the control when no layer is registered, and makes the first switch;
- the expand/collapse pass (`_animateMiniMaps`): it lays the minimaps out side by side or stacks them, and sets the container's width;
- the synchronisation of minimap views with the primary map (`_updateMiniMaps`, `_updateMiniMapPosition`).

Modules:

- `Wrappers`: `Option` and a pass/fail `Outcome`.
- `Registry`: the layer and record datatypes, and the pure queries over the list. These are the lookup, the reorder as a value with its properties, and the initial selection.
- `MapEngine`: the primary map as a class. It holds the set of layers on it (keyed by stamp, as Leaflet keys them), its load state, its view, its zoom range and the events the control fires on it.
- `Layout`: the options with their defaults, and the values the layout and synchronisation compute. These are the minimap offsets, the minimap zoom ranges and the `setView` calls.
- `Switching`: switch, click and the initial switch as functions on a `SwitchState` value, with the properties they keep.
- `Switcher`: the control as a class. It has the fields the JavaScript object updates, and its methods update them in place. Each method is tied to the functions of the modules above.

A switch can throw a TypeError part way through. The model makes that an explicit `Fail` outcome, and the state it reaches is the state the code leaves behind at the point it throws. Two boundary cases follow the code exactly:

- `_hasMultipleLayers` is `length > 0`, so a control with exactly one layer is not hidden.
- With one layer, the seeded previous id is `undefined`, so the first switch throws at the removal of the previous main layer (line 284). The active and suggested ids are already set by then (`Switching.SingleLayerRenderFails`).

The model also follows the code for a layer that is neither a layer group nor a tile layer: `_addLayer` clones it as a tile layer from its URL and options rather than ignoring it. Such a layer is represented here as `TileLayer`.

## Model

| member | source | states |
|---|---|---|
| Registry.TileSources | src/Control.MiniMapLayerSwitcher.js:169-174 | the sources cloned for a group are exactly those of its tile sub-layers, and there are at most as many as members; order and multiplicity are fixed by `Registry.TileSourcesAppend` and `Registry.TileSourcesOne` |
| Registry.CloneForMiniMap | src/Control.MiniMapLayerSwitcher.js:167-177 | a tile layer is cloned from its own URL and options; a group becomes a group holding exactly its tile sub-layers' sources |
| Registry.TileSourcesAppend | src/Control.MiniMapLayerSwitcher.js:169-173 | the clones of a group follow its members in iteration order: the sources of two runs of members are those of the first run followed by those of the second |
| Registry.TileSourcesOne | src/Control.MiniMapLayerSwitcher.js:170-173 | a single member gives exactly its own source when it is a tile layer, and nothing otherwise |
| Registry.NewRecord | src/Control.MiniMapLayerSwitcher.js:163-184 | the record pushed carries the layer's stamp as id, the layer itself, the name it was registered under and the layer's minimap copy (`Registry.CloneForMiniMap`) |
| Registry.IndexOf | src/Control.MiniMapLayerSwitcher.js:197-205 | the index of the first record with the id: no earlier record has it, and it is in range exactly when some record has the id |
| Registry.FindLayer | src/Control.MiniMapLayerSwitcher.js:192-206 | null exactly when no record has the id; otherwise the first record with that id |
| Registry.MovedToBack | src/Control.MiniMapLayerSwitcher.js:288-301 | the length is kept; an unknown id leaves the list as it is; otherwise the last record is the one `_findLayer` returns |
| Registry.MovedToBackIsRemoveThenAppend | src/Control.MiniMapLayerSwitcher.js:294-299 | the reorder equals removing the first record with the id and appending it, so the other records keep their relative order |
| Registry.MovedToBackPermutes | src/Control.MiniMapLayerSwitcher.js:296-297 | the reorder is a permutation (same multiset of records) |
| Registry.MovedToBackSameRecords | src/Control.MiniMapLayerSwitcher.js:296-297 | a record is in the list after the reorder exactly when it was in it before |
| Registry.MovedToBackKeepsUniqueIds | src/Control.MiniMapLayerSwitcher.js:288-301 | distinct ids stay distinct after the reorder |
| Registry.MovedToBackKeepsStampedIds | src/Control.MiniMapLayerSwitcher.js:288-301 | every record still carries its main layer's stamp as id after the reorder |
| Registry.MovedToBackFrontDiffers | src/Control.MiniMapLayerSwitcher.js:263-266 | with distinct ids and two or more records, the record in front after the move (the suggested one) is not the one moved |
| Registry.MovedToBackIdempotent | src/Control.MiniMapLayerSwitcher.js:288-301 | with distinct ids, moving the same id to the back twice is moving it once |
| Registry.FirstAttached | src/Control.MiniMapLayerSwitcher.js:343-350 | the first pass stops at the first record whose main layer is on the map: no earlier record's main layer is on it |
| Registry.FirstOther | src/Control.MiniMapLayerSwitcher.js:368-374 | the pass stops at the first record whose id differs from the given one: every earlier record carries the given id |
| Registry.InitialMainMapLayerId | src/Control.MiniMapLayerSwitcher.js:339-363 | none exactly for an empty list; the first record whose main layer is on the map; the first record when none is on it |
| Registry.InitialMiniMapLayerId | src/Control.MiniMapLayerSwitcher.js:365-377 | a registered id different from the given one, namely the first such; none when every record carries the given id |
| Registry.InitialIdsDiffer | src/Control.MiniMapLayerSwitcher.js:90-91 | with distinct ids and two or more records, both initial ids exist and differ |
| Registry.SingleRecordHasNoMiniMapId | src/Control.MiniMapLayerSwitcher.js:90-94 | with a single record the minimap choice, and hence the seeded active id, is none |
| Layout.OffsetsKeys | src/Control.MiniMapLayerSwitcher.js:315-328 | the layout pass sets the offset of every record's minimap and leaves the offsets of other ids unchanged |
| Layout.OffsetsAt | src/Control.MiniMapLayerSwitcher.js:322-324 | with distinct ids, the k-th record's minimap gets offset k times the step |
| Layout.ExpandedLayoutFits | src/Control.MiniMapLayerSwitcher.js:322-331 | expanded, the first minimap is at 0, each later one is width plus margin to the right of the one before, and the last ends exactly at the container's width |
| Layout.CollapsedLayoutStacks | src/Control.MiniMapLayerSwitcher.js:325-327 | collapsed, every registered minimap is at offset 0 |
| Layout.WithMiniMapsKeys | src/Control.MiniMapLayerSwitcher.js:80-82 | rendering gives every record a minimap and leaves other minimaps as they were |
| Layout.WithMiniMapsAt | src/Control.MiniMapLayerSwitcher.js:140-160 | with distinct ids, each record's minimap shows that record's copy, with the primary map's zoom range shifted by the offset |
| Layout.SyncAllInOrder | src/Control.MiniMapLayerSwitcher.js:403-406 | synchronising all minimaps makes one `setView` per record, in list order, each to the primary map's centre and offset zoom |
| Layout.DefaultExpandedWidth | src/Control.MiniMapLayerSwitcher.js:4-12 | the declared defaults: with width 90 and margin 10, n minimaps side by side take 100n - 10 pixels; the zoom offset is -3 and `autoZIndex` is on |
| Layout.Offsets | src/Control.MiniMapLayerSwitcher.js:322-327 | the `left` offsets after the layout pass, the k-th record's minimap at k times the step; its properties are `Layout.OffsetsKeys`, `Layout.OffsetsAt`, `Layout.ExpandedLayoutFits` and `Layout.CollapsedLayoutStacks` |
| Layout.WithMiniMaps | src/Control.MiniMapLayerSwitcher.js:140-160 | the minimap dictionary after one `_addMiniMap` per record, each showing the record's copy with the shifted zoom range; its properties are `Layout.WithMiniMapsKeys` and `Layout.WithMiniMapsAt` |
| Layout.SyncAll | src/Control.MiniMapLayerSwitcher.js:403-406 | the `setView` calls made when every minimap is synchronised; `Layout.SyncAllInOrder` states one call per record, in list order |
| Layout.ExpandedWidth | src/Control.MiniMapLayerSwitcher.js:331 | the expanded container width, n(width + margin) - margin; `Layout.ExpandedLayoutFits` shows the last minimap ends exactly there |
| Switching.SwitchActivates | src/Control.MiniMapLayerSwitcher.js:256-286 | switching to a registered id makes it active and last, suggests the front record, permutes the list and fires no `baselayerchanged`; it fails exactly when the previous active layer is not found, and then leaves the primary map untouched |
| Switching.SwitchUnknownChangesNothing | src/Control.MiniMapLayerSwitcher.js:259-263 | switching to an id with no record fails before anything changes |
| Switching.SwitchSuggestsAnother | src/Control.MiniMapLayerSwitcher.js:263-269 | with distinct ids and two or more layers, the suggested layer is registered and differs from the one switched to |
| Switching.SwitchReplacesMainLayer | src/Control.MiniMapLayerSwitcher.js:283-285 | a completed switch passes, and its new state is the reorder, the new active and suggested ids, and the attached layers with the previous main layer removed and the new one added |
| Switching.SwitchKeepsOneMainLayer | src/Control.MiniMapLayerSwitcher.js:283-285 | if exactly the active layer's main layer is on the map before a switch, exactly the new one is on it afterwards |
| Switching.SwitchTwiceIsSwitchOnce | src/Control.MiniMapLayerSwitcher.js:256-286 | with distinct ids, switching again to the layer just switched to passes and leaves the state as it is; the code still removes that main layer from the primary map and adds it straight back, which leaves the attached set unchanged |
| Switching.ClickIgnored | src/Control.MiniMapLayerSwitcher.js:231-239 | a click while collapsed, or on the active layer's minimap, changes nothing |
| Switching.ClickFiresOnce | src/Control.MiniMapLayerSwitcher.js:241-248 | a click that switches makes the clicked layer active and last, and fires exactly one `baselayerchanged` with the clicked main layer; a failed switch fires nothing |
| Switching.SingleLayerRenderFails | src/Control.MiniMapLayerSwitcher.js:90-97 | with one layer the first switch fails at the removal of the previous main layer, with active and suggested set to that layer, the list unchanged and the primary map untouched (that the control is not hidden first comes from `HasMultipleLayers` and `Switcher.Rendered`) |
| Switching.InitialSwitchCompletes | src/Control.MiniMapLayerSwitcher.js:90-97 | with distinct ids and two or more layers, the first switch passes, the main choice is active and on the map, the seeded minimap choice's main layer is removed, and a different layer is suggested |
| Switching.ThreeLayerWalkthrough | src/Control.MiniMapLayerSwitcher.js:90-97 | for layers A, B, C with A on the map: rendering leaves [B, C, A] with A active and B suggested; switching to B then leaves [C, A, B] with C suggested and only B on the map |
| Switching.LastActiveLayer | src/Control.MiniMapLayerSwitcher.js:257-258 | `_findLayer` of the active id: found exactly when an id is set and some record carries it, and then a registered record with that id |
| Switching.Switch | src/Control.MiniMapLayerSwitcher.js:256-286 | the outcome and state `_switchLayer` leaves, including the partial state when it throws; its properties are `Switching.SwitchActivates`, `Switching.SwitchUnknownChangesNothing`, `Switching.SwitchSuggestsAnother`, `Switching.SwitchReplacesMainLayer`, `Switching.SwitchKeepsOneMainLayer` and `Switching.SwitchTwiceIsSwitchOnce` |
| Switching.Click | src/Control.MiniMapLayerSwitcher.js:224-254 | the outcome and state `_onMiniMapClicked` leaves; its properties are `Switching.ClickIgnored` and `Switching.ClickFiresOnce` |
| Switching.InitialSwitch | src/Control.MiniMapLayerSwitcher.js:90-97 | the seeding of the active id with the minimap choice and the switch to the main choice; its properties are `Switching.InitialSwitchCompletes`, `Switching.SingleLayerRenderFails` and `Switching.ThreeLayerWalkthrough` |
| MapEngine.PrimaryMap.AddLayer | src/Control.MiniMapLayerSwitcher.js:285 | the layer is on the map afterwards; the other layers are unchanged |
| MapEngine.PrimaryMap.RemoveLayer | src/Control.MiniMapLayerSwitcher.js:284 | the layer is off the map afterwards; the other layers are unchanged |
| MapEngine.PrimaryMap.Fire | src/Control.MiniMapLayerSwitcher.js:248 | the event is appended to the events fired |
| MapEngine.PrimaryMap.HasLayer | src/Control.MiniMapLayerSwitcher.js:346 | whether the layer's stamp is on the map; `MapEngine.PrimaryMap.AddLayer` and `MapEngine.PrimaryMap.RemoveLayer` ensure it holds and fails afterwards |
| Switcher.ZIndexesInRange | src/Control.MiniMapLayerSwitcher.js:186-189 | with `autoZIndex` every layer that has `setZIndex` gets a z-index, without it none does, and every value given lies between 1 and the counter |
| Switcher.ZIndexCount | src/Control.MiniMapLayerSwitcher.js:186-187 | how many z-indices registering the base layers hands out: one per layer with `setZIndex` while `autoZIndex` is on; `Switcher.ZIndexesInRange` bounds the values by it |
| Switcher.ZIndexes | src/Control.MiniMapLayerSwitcher.js:186-188 | the z-index each main layer is given, by stamp, the k-th layer with `setZIndex` getting k; its properties are in `Switcher.ZIndexesInRange` |
| Switcher.MiniMapLayerSwitcher.constructor | src/Control.MiniMapLayerSwitcher.js:14-24 | one record per base layer, in the given order; the z-index counter equals the number of layers given a z-index, and the z-indices are `Switcher.ZIndexes`, where the k-th layer with `setZIndex` gets k |
| Switcher.MiniMapLayerSwitcher.AddLayer | src/Control.MiniMapLayerSwitcher.js:163-190 | the new record is appended; with `autoZIndex` and a layer that has `setZIndex`, the counter goes up by one and the layer gets the new value, otherwise neither changes |
| Switcher.MiniMapLayerSwitcher.ForEachLayer | src/Control.MiniMapLayerSwitcher.js:379-391 | records are visited in order, and the pass stops right after the first record whose callback asks to stop |
| Switcher.MiniMapLayerSwitcher.GetInitialMainMapLayerId | src/Control.MiniMapLayerSwitcher.js:339-363 | the two passes compute `Registry.InitialMainMapLayerId` |
| Switcher.MiniMapLayerSwitcher.GetInitialMiniMapLayerId | src/Control.MiniMapLayerSwitcher.js:365-377 | the pass computes `Registry.InitialMiniMapLayerId` |
| Switcher.MiniMapLayerSwitcher.HasMultipleLayers | src/Control.MiniMapLayerSwitcher.js:441-443 | true exactly when at least one layer is registered, including a single one |
| Switcher.MiniMapLayerSwitcher.SyncEnabled | src/Control.MiniMapLayerSwitcher.js:415 | the guard of `_updateMiniMapPosition`: the primary map is ready and a layer is registered; `Switcher.MiniMapLayerSwitcher.UpdateMiniMapPosition` states that nothing happens without it |
| Switcher.MiniMapLayerSwitcher.MoveLayerToBack | src/Control.MiniMapLayerSwitcher.js:288-301 | the splice-and-push loop leaves the list equal to `Registry.MovedToBack` of the old list |
| Switcher.MiniMapLayerSwitcher.SwitchLayer | src/Control.MiniMapLayerSwitcher.js:256-286 | the outcome and the new layers, ids and attached layers are those of `Switching.Switch` on the old state; every record keeps a minimap |
| Switcher.MiniMapLayerSwitcher.OnMiniMapClicked | src/Control.MiniMapLayerSwitcher.js:224-254 | the outcome and new state are those of `Switching.Click` on the old state and the expanded flag, and the control stays consistent |
| Switcher.MiniMapLayerSwitcher.RenderMiniMaps | src/Control.MiniMapLayerSwitcher.js:80-82 | after the pass every record has a minimap, and the minimap dictionary is the old one plus one minimap per record |
| Switcher.MiniMapLayerSwitcher.ShowInitialLayer | src/Control.MiniMapLayerSwitcher.js:84-97 | with no layers the control is hidden and nothing else changes; otherwise the result is `Switching.InitialSwitch`, and a registered layer is suggested |
| Switcher.MiniMapLayerSwitcher.Render | src/Control.MiniMapLayerSwitcher.js:58-98 | the minimaps are created and then the initial layer is shown, as the two methods above state |
| Switcher.MiniMapLayerSwitcher.OnMapReady | src/Control.MiniMapLayerSwitcher.js:437-439 | the primary map is marked ready |
| Switcher.MiniMapLayerSwitcher.UpdateMiniMapPosition | src/Control.MiniMapLayerSwitcher.js:412-435 | nothing before the map is ready or without layers; otherwise one `setView` on that minimap, to the primary map's centre and its zoom plus the offset |
| Switcher.MiniMapLayerSwitcher.UpdateMiniMaps | src/Control.MiniMapLayerSwitcher.js:398-410 | the calls made are: every minimap in list order when expanded, else only the suggested one, and none before the map is ready |
| Switcher.MiniMapLayerSwitcher.PendingViews | src/Control.MiniMapLayerSwitcher.js:398-410 | the `setView` calls `_updateMiniMaps` makes: none unless synchronisation is enabled, every minimap when expanded, else the suggested one; `Switcher.MiniMapLayerSwitcher.UpdateMiniMaps` ensures it and `Layout.SyncAllInOrder` gives the order |
| Switcher.MiniMapLayerSwitcher.PlaceMiniMaps | src/Control.MiniMapLayerSwitcher.js:315-328 | the pass synchronises every minimap in order, sets the offsets to `Layout.Offsets` with the expand or collapse step, and counts the minimaps shown |
| Switcher.MiniMapLayerSwitcher.AnimateMiniMaps | src/Control.MiniMapLayerSwitcher.js:303-337 | nothing when already in the requested state; otherwise the offsets, the synchronisation, the container width (the expanded width or 0) and the expanded flag follow |
| Switcher.MiniMapLayerSwitcher.ToggleMiniMaps | src/Control.MiniMapLayerSwitcher.js:100-104 | the expanded flag flips; the offsets, the container width (the expanded width or 0) and the synchronisation of every minimap follow the new state |
| Switcher.MiniMapLayerSwitcher.Attach | src/Control.MiniMapLayerSwitcher.js:44-52 | the map is ready if it was loaded; the minimaps are created and the initial layer is shown, as `Render` states |
| Switcher.MiniMapLayerSwitcher.AddTo | src/Control.MiniMapLayerSwitcher.js:26-42 | the map is ready if it was loaded, the minimaps are created, and the initial layer is shown as `Render` states; if rendering threw, no view is synchronised, otherwise the pending synchronisation is done |

## Left out

- DOM construction, CSS classes and styles other than `left` and `width`: the `active-map` and `suggested-map` classes, the `notransition` class and the forced reflow (lines 244-253, 272-281), the container's height and `aria-haspopup`. These are presentation only.
- `_renderMiniMap`'s DOM. The minimap it creates is kept, as a `MiniMap` value in the minimap dictionary.
- `_getCurrentTarget` and `_getFirstElementWithClass`. The click handler takes the clicked layer id directly.
- `_getMiniMapContainer`. Its only behaviour that matters is that it throws for an id without a minimap. That is captured by the invariant that every record has a minimap, plus the `NewLayerNotFound` failure for an unknown id.
- The construction of each minimap's `L.map` beyond the layer it shows and its zoom range. Its interaction options are DOM behaviour.
- `invalidateSize` in `addTo` (lines 33-39). It only redraws.
- Browser touch detection and the event wiring: `on`/`off` for `move`, `mouseenter`, `mouseleave` and `click`, and `whenReady`. A `move` of the primary map is a call to `UpdateMiniMaps`. `whenReady` on a map that has not loaded yet is a later call to `OnMapReady`. Mouse enter and leave (`_expand`, `_contract`) are calls to `AnimateMiniMaps(true)` and `AnimateMiniMaps(false)`.
- `onRemove`, which only unbinds the `move` handler.
- `L.setOptions`: the options arrive already merged with the defaults (`Layout.DefaultOptions`).
- `L.Control.prototype.addTo`: the primary map is given to the constructor rather than to `AddTo`.
- The factory `L.control.miniMapLayerSwitcher` (lines 446-448). It only calls the constructor.
- The build script `Jakefile.js`. It is not part of this model.
- Fractional zoom levels: zoom is an integer. The map centre is an abstract `LatLng` that is only copied.
- The key order of `for..in` over the base-layer object. The base layers are given as a sequence of (name, layer) pairs in the order they are iterated.
- Layer kinds other than tile layers and layer groups. Sub-layers of a group that are not tile layers are represented by `OtherMember` and are not cloned.
- Two records carrying the same stamp. The properties that need distinct ids require `UniqueIds`. For such records `_renderMiniMap` (lines 120 and 137) shows the copy of the first record with that id, while `Layout.WithMiniMaps` uses each record's own copy; with distinct ids the two agree.
- The events Leaflet itself fires when a layer is added to or removed from a loaded map (`layeradd`, `layerremove`, from lines 284-285). The fired log holds only the control's own `baselayerchanged`, so where a "## Model" row says a switch fires nothing, it means the control fires nothing.
- The animation options passed to `setView` (lines 427-434: no pan animation, animated zoom). A `ViewUpdate` records only the target minimap, the centre and the zoom.
- Switcher.MiniMapLayerSwitcher.ForEachLayer: the callback is a pure `stop` test on the record. The callbacks in the code that have side effects are modelled as the loops of the methods that use them (`RenderMiniMaps`, `PlaceMiniMaps`, `UpdateMiniMaps`).
- Switcher.MiniMapLayerSwitcher.AddTo: a TypeError thrown by `_render` ends `addTo`; here it is returned as `Fail`, and no view is synchronised afterwards.
- Switcher.MiniMapLayerSwitcher.AddLayer: `setZIndex` is recorded as the value the layer was given, not as a call into the layer.
