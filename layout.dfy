/** The control's options and the values its expand/collapse pass and its
    viewport synchronisation compute: minimap offsets, minimap zoom ranges and
    the `setView` calls made on minimaps. */
module Layout {
  import opened Registry
  import opened MapEngine

  /** The control's options; only the width, margin, zoom offset and `autoZIndex`
      enter the modelled behaviour, the rest shape the DOM. */
  datatype Options = Options(
    miniMapLabelHeight: int,
    miniMapHeight: int,
    miniMapWidth: int,
    miniMapMargin: int,
    miniMapZoomOffset: int,
    position: string,
    autoZIndex: bool)

  /** The defaults the control declares. */
  const DefaultOptions := Options(22, 80, 90, 10, -3, "topright", true)

  /** With the defaults, n minimaps side by side take 100n - 10 pixels and each
      minimap is three zoom levels out from the primary map. */
  lemma DefaultExpandedWidth(n: nat)
    ensures ExpandedWidth(n, DefaultOptions.miniMapWidth, DefaultOptions.miniMapMargin) == 100 * n - 10
    ensures DefaultOptions.miniMapZoomOffset == -3 && DefaultOptions.autoZIndex
  {
  }

  /** A minimap as created for one layer: the copy it shows and its zoom range. */
  datatype MiniMap = MiniMap(layer: MiniLayer, minZoom: int, maxZoom: int)

  /** One `setView` call made on the minimap of `target`. */
  datatype ViewUpdate = ViewUpdate(target: LayerId, center: LatLng, zoom: int)

  /** The `left` offsets after a pass over `s` that gives the k-th record's
      minimap `k * step`; for a repeated id the later record's value stays. */
  function Offsets(left: map<LayerId, int>, s: seq<LayerRecord>, step: int): (r: map<LayerId, int>) {
    if s == [] then left
    else
      var n := |s| - 1;
      Offsets(left, s[..n], step)[s[n].id := n * step]
  }

  /** The pass gives an offset to every record's minimap and leaves the others. */
  lemma {:induction false} OffsetsKeys(left: map<LayerId, int>, s: seq<LayerRecord>, step: int)
    ensures Offsets(left, s, step).Keys == left.Keys + Ids(s)
    ensures forall id :: id in left && id !in Ids(s) ==> Offsets(left, s, step)[id] == left[id]
  {
    if s != [] {
      var n := |s| - 1;
      IdsOfSnoc(s);
      OffsetsKeys(left, s[..n], step);
    }
  }

  /** The minimap dictionary after one minimap is made per record of `s`, each
      with the primary map's zoom range shifted by the offset. */
  function WithMiniMaps(miniMaps: map<LayerId, MiniMap>, s: seq<LayerRecord>, minZoom: int, maxZoom: int)
    : (r: map<LayerId, MiniMap>)
  {
    if s == [] then miniMaps
    else
      var n := |s| - 1;
      WithMiniMaps(miniMaps, s[..n], minZoom, maxZoom)[s[n].id := MiniMap(s[n].miniLayer, minZoom, maxZoom)]
  }

  /** Every record gets a minimap; the minimaps of other ids stay as they were. */
  lemma {:induction false} WithMiniMapsKeys(miniMaps: map<LayerId, MiniMap>, s: seq<LayerRecord>, minZoom: int, maxZoom: int)
    ensures WithMiniMaps(miniMaps, s, minZoom, maxZoom).Keys == miniMaps.Keys + Ids(s)
    ensures forall id :: id in miniMaps && id !in Ids(s) ==> WithMiniMaps(miniMaps, s, minZoom, maxZoom)[id] == miniMaps[id]
  {
    if s != [] {
      var n := |s| - 1;
      IdsOfSnoc(s);
      WithMiniMapsKeys(miniMaps, s[..n], minZoom, maxZoom);
    }
  }

  /** With distinct ids, the k-th record's minimap is at offset `k * step`. */
  lemma {:induction false} OffsetsAt(left: map<LayerId, int>, s: seq<LayerRecord>, step: int, k: nat)
    requires UniqueIds(s) && k < |s|
    ensures s[k].id in Offsets(left, s, step) && Offsets(left, s, step)[s[k].id] == k * step
  {
    var n := |s| - 1;
    IdsOfSnoc(s);
    if k < n {
      assert UniqueIds(s[..n]) by {
        forall i, j | 0 <= i < n && 0 <= j < n && s[..n][i].id == s[..n][j].id ensures i == j {
          assert s[..n][i] == s[i] && s[..n][j] == s[j];
        }
      }
      assert s[..n][k] == s[k];
      OffsetsAt(left, s[..n], step, k);
    }
  }

  /** With distinct ids, each record's minimap shows that record's copy. */
  lemma {:induction false} WithMiniMapsAt(miniMaps: map<LayerId, MiniMap>, s: seq<LayerRecord>, minZoom: int, maxZoom: int, k: nat)
    requires UniqueIds(s) && k < |s|
    ensures var r := WithMiniMaps(miniMaps, s, minZoom, maxZoom);
            s[k].id in r && r[s[k].id] == MiniMap(s[k].miniLayer, minZoom, maxZoom)
  {
    var n := |s| - 1;
    IdsOfSnoc(s);
    if k < n {
      assert UniqueIds(s[..n]) by {
        forall i, j | 0 <= i < n && 0 <= j < n && s[..n][i].id == s[..n][j].id ensures i == j {
          assert s[..n][i] == s[i] && s[..n][j] == s[j];
        }
      }
      assert s[..n][k] == s[k];
      WithMiniMapsAt(miniMaps, s[..n], minZoom, maxZoom, k);
    }
  }

  /** The `setView` calls made when every minimap is synchronised, in list order. */
  function SyncAll(s: seq<LayerRecord>, center: LatLng, zoom: int): (calls: seq<ViewUpdate>) {
    if s == [] then []
    else SyncAll(s[..|s| - 1], center, zoom) + [ViewUpdate(s[|s| - 1].id, center, zoom)]
  }

  /** One more record of the pass adds its offset. */
  lemma OffsetsSnoc(left: map<LayerId, int>, s: seq<LayerRecord>, step: int, k: nat)
    requires k < |s|
    ensures Offsets(left, s[..k + 1], step) == Offsets(left, s[..k], step)[s[k].id := k * step]
  {
    assert s[..k + 1][..k] == s[..k];
  }

  /** One more record synchronised adds its call at the end, after the calls
      made `before` the pass. */
  lemma SyncAllSnoc(before: seq<ViewUpdate>, s: seq<LayerRecord>, center: LatLng, zoom: int, k: nat)
    requires k < |s|
    ensures before + SyncAll(s[..k + 1], center, zoom) ==
            before + SyncAll(s[..k], center, zoom) + [ViewUpdate(s[k].id, center, zoom)]
  {
    assert s[..k + 1][..k] == s[..k];
  }

  /** One call per record, in list order, each to the primary map's view. */
  lemma {:induction false} SyncAllInOrder(s: seq<LayerRecord>, center: LatLng, zoom: int)
    ensures |SyncAll(s, center, zoom)| == |s|
    ensures forall k :: 0 <= k < |s| ==> SyncAll(s, center, zoom)[k] == ViewUpdate(s[k].id, center, zoom)
  {
    if s != [] {
      var n := |s| - 1;
      SyncAllInOrder(s[..n], center, zoom);
      forall k | 0 <= k < n ensures SyncAll(s, center, zoom)[k] == ViewUpdate(s[k].id, center, zoom) {
        assert s[..n][k] == s[k];
      }
    }
  }

  /** The container width of the expanded control for `n` minimaps. */
  function ExpandedWidth(n: nat, mapWidth: int, mapMargin: int): (w: int) {
    n * (mapWidth + mapMargin) - mapMargin
  }

  /** Expanded, the minimaps sit side by side in list order, `margin` apart, and
      the last one ends exactly at the container's right edge. */
  lemma ExpandedLayoutFits(left: map<LayerId, int>, s: seq<LayerRecord>, mapWidth: int, mapMargin: int)
    requires UniqueIds(s) && s != []
    ensures var r := Offsets(left, s, mapWidth + mapMargin);
            (forall k :: 0 <= k < |s| ==> s[k].id in r) &&
            r[s[0].id] == 0 &&
            (forall k :: 0 < k < |s| ==> r[s[k].id] == r[s[k - 1].id] + mapWidth + mapMargin) &&
            r[s[|s| - 1].id] + mapWidth == ExpandedWidth(|s|, mapWidth, mapMargin)
  {
    var r := Offsets(left, s, mapWidth + mapMargin);
    forall k | 0 <= k < |s| ensures s[k].id in r {
      OffsetsAt(left, s, mapWidth + mapMargin, k);
    }
    OffsetsAt(left, s, mapWidth + mapMargin, 0);
    forall k | 0 < k < |s| ensures r[s[k].id] == r[s[k - 1].id] + mapWidth + mapMargin {
      OffsetsAt(left, s, mapWidth + mapMargin, k);
      OffsetsAt(left, s, mapWidth + mapMargin, k - 1);
      assert k * (mapWidth + mapMargin) == (k - 1) * (mapWidth + mapMargin) + mapWidth + mapMargin;
    }
    var n := |s|;
    OffsetsAt(left, s, mapWidth + mapMargin, n - 1);
    assert (n - 1) * (mapWidth + mapMargin) + mapWidth == n * (mapWidth + mapMargin) - mapMargin;
  }

  /** Collapsed, every minimap the pass touches sits at offset 0. */
  lemma {:induction false} CollapsedLayoutStacks(left: map<LayerId, int>, s: seq<LayerRecord>, id: LayerId)
    requires id in Ids(s)
    ensures id in Offsets(left, s, 0) && Offsets(left, s, 0)[id] == 0
  {
    var n := |s| - 1;
    IdsOfSnoc(s);
    if s[n].id != id {
      CollapsedLayoutStacks(left, s[..n], id);
    }
  }
}
