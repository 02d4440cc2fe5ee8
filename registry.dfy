/** The ordered list of layer records kept by the control (`_layers`) and the
    read-only queries over it: `_findLayer`, the recency reorder of
    `_moveLayerToBack` as a value, and the initial selection. */
module Registry {
  import opened Wrappers

  /** Leaflet's `L.stamp` numbers layer objects from 1 upwards, so an id is never 0. */
  type LayerId = x: int | x >= 1 witness 1

  /** The source parameters a tile layer is built from: its URL template and its
      options object (kept abstract). */
  datatype TileSource = TileSource(url: string, options: nat)

  /** A sub-layer of a layer group: only tile layers are cloned for the minimap. */
  datatype GroupMember = TileMember(source: TileSource) | OtherMember

  datatype LayerKind = TileLayer(source: TileSource) | LayerGroup(members: seq<GroupMember>)

  /** A base layer given to the control: its stamp, its shape, and whether it has `setZIndex`. */
  datatype Layer = Layer(stamp: LayerId, kind: LayerKind, canSetZIndex: bool)

  /** The independent copy of a base layer shown inside a minimap. */
  datatype MiniLayer = TileClone(source: TileSource) | GroupClone(sources: seq<TileSource>)

  /** One entry of `_layers`. */
  datatype LayerRecord = LayerRecord(id: LayerId, name: string, mainLayer: Layer, miniLayer: MiniLayer)

  /** The tile sub-layers of a group, in iteration order. */
  function TileSources(members: seq<GroupMember>): (r: seq<TileSource>)
    ensures |r| <= |members|
    ensures forall s :: s in r <==> TileMember(s) in members
  {
    if members == [] then []
    else
      var rest := TileSources(members[1..]);
      assert members == [members[0]] + members[1..];
      match members[0]
      case TileMember(s) => [s] + rest
      case OtherMember => rest
  }

  /** The minimap copy of a layer: a new tile layer from the same source, or a new
      group holding a copy of each tile sub-layer. */
  function CloneForMiniMap(layer: Layer): (c: MiniLayer)
    ensures layer.kind.TileLayer? ==> c == TileClone(layer.kind.source)
    ensures layer.kind.LayerGroup? ==> c == GroupClone(TileSources(layer.kind.members))
    ensures layer.kind.LayerGroup? ==>
      c.GroupClone? && |c.sources| <= |layer.kind.members| &&
      forall s :: s in c.sources <==> TileMember(s) in layer.kind.members
  {
    match layer.kind
    case TileLayer(source) => TileClone(source)
    case LayerGroup(members) => GroupClone(TileSources(members))
  }

  /** One clone per tile sub-layer, in iteration order: the sources of two runs of
      members are the sources of the first followed by those of the second. */
  lemma {:induction false} TileSourcesAppend(x: seq<GroupMember>, y: seq<GroupMember>)
    ensures TileSources(x + y) == TileSources(x) + TileSources(y)
  {
    if x == [] {
      assert x + y == y;
    } else {
      assert (x + y)[1..] == x[1..] + y;
      TileSourcesAppend(x[1..], y);
    }
  }

  /** A single member gives its own source when it is a tile layer, and nothing otherwise. */
  lemma TileSourcesOne(m: GroupMember)
    ensures TileSources([m]) == if m.TileMember? then [m.source] else []
  {
  }

  /** The record `_addLayer` pushes for a layer registered under a name. */
  function NewRecord(layer: Layer, name: string): (r: LayerRecord)
    ensures r.id == r.mainLayer.stamp && r.mainLayer == layer && r.name == name
    ensures r.miniLayer == CloneForMiniMap(layer)
  {
    LayerRecord(layer.stamp, name, layer, CloneForMiniMap(layer))
  }

  /** Every record's id is the stamp of its main layer. */
  ghost predicate StampedIds(s: seq<LayerRecord>) {
    forall r :: r in s ==> r.id == r.mainLayer.stamp
  }

  predicate HasId(s: seq<LayerRecord>, id: LayerId) {
    exists j :: 0 <= j < |s| && s[j].id == id
  }

  /** The set of ids the records carry. */
  function Ids(s: seq<LayerRecord>): (ids: set<LayerId>) {
    set k | 0 <= k < |s| :: s[k].id
  }

  lemma IdsCover(s: seq<LayerRecord>)
    ensures forall r :: r in s ==> r.id in Ids(s)
  {
    forall r | r in s ensures r.id in Ids(s) {
      var k :| 0 <= k < |s| && s[k] == r;
    }
  }

  lemma IdsOfSnoc(s: seq<LayerRecord>)
    requires s != []
    ensures Ids(s) == Ids(s[..|s| - 1]) + {s[|s| - 1].id}
  {
    var n := |s| - 1;
    forall id | id in Ids(s) ensures id in Ids(s[..n]) + {s[n].id} {
      var k :| 0 <= k < |s| && s[k].id == id;
      if k < n { assert s[..n][k] == s[k]; }
    }
    forall id | id in Ids(s[..n]) ensures id in Ids(s) {
      var k :| 0 <= k < n && s[..n][k].id == id;
      assert s[k] == s[..n][k];
    }
  }

  ghost predicate UniqueIds(s: seq<LayerRecord>) {
    forall i, j :: 0 <= i < |s| && 0 <= j < |s| && s[i].id == s[j].id ==> i == j
  }

  /** Index of the first record carrying `id`, or `|s|`. */
  function IndexOf(s: seq<LayerRecord>, id: LayerId): (k: nat)
    ensures k <= |s|
    ensures forall j :: 0 <= j < k ==> s[j].id != id
    ensures k < |s| <==> HasId(s, id)
    ensures k < |s| ==> s[k].id == id
  {
    if s == [] then 0
    else if s[0].id == id then 0
    else 1 + IndexOf(s[1..], id)
  }

  /** `_findLayer`: the first record with that id, or None (`null`). */
  function FindLayer(s: seq<LayerRecord>, id: LayerId): (r: Option<LayerRecord>)
    ensures r.None? <==> !HasId(s, id)
    ensures forall k :: 0 <= k < |s| && s[k].id == id && (forall j :: 0 <= j < k ==> s[j].id != id)
              ==> r == Some(s[k])
  {
    var k := IndexOf(s, id);
    if k < |s| then Some(s[k]) else None
  }

  /** The list after `_moveLayerToBack`: the first record with `id` taken out and
      pushed on the end; the list itself when no record has `id`. */
  function MovedToBack(s: seq<LayerRecord>, id: LayerId): (t: seq<LayerRecord>)
    ensures |t| == |s|
    ensures !HasId(s, id) ==> t == s
    ensures HasId(s, id) ==> Some(t[|t| - 1]) == FindLayer(s, id)
  {
    var k := IndexOf(s, id);
    if k < |s| then s[..k] + s[k + 1..] + [s[k]] else s
  }

  /** Reference definition: the list without the first record carrying `id`. */
  function RemoveFirst(s: seq<LayerRecord>, id: LayerId): (t: seq<LayerRecord>) {
    if s == [] then []
    else if s[0].id == id then s[1..]
    else [s[0]] + RemoveFirst(s[1..], id)
  }

  /** Moving to the back is removing the first occurrence and appending it: the
      other records keep their relative order. */
  lemma {:induction false} MovedToBackIsRemoveThenAppend(s: seq<LayerRecord>, id: LayerId)
    requires HasId(s, id)
    ensures MovedToBack(s, id) == RemoveFirst(s, id) + [FindLayer(s, id).value]
  {
    if s[0].id == id {
      MovedToBackHead(s, id);
    } else {
      var t := s[1..];
      MovedToBackStep(s, id);
      MovedToBackIsRemoveThenAppend(t, id);
      PrependSnoc(s[0], RemoveFirst(t, id), FindLayer(t, id).value);
    }
  }

  /** The base case above: a matching head is moved from the front to the back. */
  lemma MovedToBackHead(s: seq<LayerRecord>, id: LayerId)
    requires s != [] && s[0].id == id
    ensures MovedToBack(s, id) == RemoveFirst(s, id) + [FindLayer(s, id).value]
  {
    IndexOfHead(s, id);
    assert s[..0] + s[1..] == s[1..];
  }

  lemma PrependSnoc(x: LayerRecord, s: seq<LayerRecord>, y: LayerRecord)
    ensures [x] + (s + [y]) == ([x] + s) + [y]
  {
  }

  /** One step of the induction above: a head that does not match stays in front. */
  lemma MovedToBackStep(s: seq<LayerRecord>, id: LayerId)
    requires HasId(s, id) && s[0].id != id
    ensures HasId(s[1..], id)
    ensures MovedToBack(s, id) == [s[0]] + MovedToBack(s[1..], id)
    ensures FindLayer(s, id) == FindLayer(s[1..], id)
  {
    var t := s[1..];
    var k := IndexOf(s, id);
    IndexOfTail(s, id);
    assert s[..k] + s[k + 1..] + [s[k]] == [s[0]] + (t[..k - 1] + t[k..] + [t[k - 1]]);
  }

  lemma IndexOfHead(s: seq<LayerRecord>, id: LayerId)
    requires s != [] && s[0].id == id
    ensures IndexOf(s, id) == 0
  {
  }

  lemma IndexOfTail(s: seq<LayerRecord>, id: LayerId)
    requires HasId(s, id) && s[0].id != id
    ensures HasId(s[1..], id)
    ensures IndexOf(s, id) == IndexOf(s[1..], id) + 1
  {
    var k := IndexOf(s, id);
    assert s[1..][k - 1] == s[k];
  }

  /** The reorder is a permutation: no record is lost or duplicated. */
  lemma MovedToBackPermutes(s: seq<LayerRecord>, id: LayerId)
    ensures multiset(MovedToBack(s, id)) == multiset(s)
  {
    var k := IndexOf(s, id);
    if k < |s| {
      assert s == s[..k] + [s[k]] + s[k + 1..];
    }
  }

  /** Distinct ids stay distinct after the reorder. */
  lemma MovedToBackKeepsUniqueIds(s: seq<LayerRecord>, id: LayerId)
    requires UniqueIds(s)
    ensures UniqueIds(MovedToBack(s, id))
  {
    var k := IndexOf(s, id);
    var t := MovedToBack(s, id);
    if k < |s| {
      forall i, j | 0 <= i < |t| && 0 <= j < |t| && t[i].id == t[j].id
        ensures i == j
      {
        var fi := if i < k then i else if i < |s| - 1 then i + 1 else k;
        var fj := if j < k then j else if j < |s| - 1 then j + 1 else k;
        assert t[i] == s[fi] && t[j] == s[fj];
      }
    }
  }

  /** The reorder keeps exactly the same records. */
  lemma MovedToBackSameRecords(s: seq<LayerRecord>, id: LayerId)
    ensures forall r :: r in MovedToBack(s, id) <==> r in s
  {
    MovedToBackPermutes(s, id);
    forall r ensures r in MovedToBack(s, id) <==> r in s {
      assert r in MovedToBack(s, id) <==> r in multiset(MovedToBack(s, id));
      assert r in s <==> r in multiset(s);
    }
  }

  /** Every record keeps the id of its main layer through the reorder. */
  lemma MovedToBackKeepsStampedIds(s: seq<LayerRecord>, id: LayerId)
    requires StampedIds(s)
    ensures StampedIds(MovedToBack(s, id))
  {
    MovedToBackSameRecords(s, id);
  }

  /** With distinct ids, the record at the front after the move is never the moved one. */
  lemma MovedToBackFrontDiffers(s: seq<LayerRecord>, id: LayerId)
    requires UniqueIds(s) && HasId(s, id) && |s| >= 2
    ensures MovedToBack(s, id)[0].id != id
  {
    var k := IndexOf(s, id);
    if k == 0 {
      assert MovedToBack(s, id)[0] == s[1];
    } else {
      assert MovedToBack(s, id)[0] == s[0];
    }
  }

  /** With distinct ids, a record already at the back stays put: moving the same
      id twice is moving it once. */
  lemma MovedToBackIdempotent(s: seq<LayerRecord>, id: LayerId)
    requires UniqueIds(s)
    ensures MovedToBack(MovedToBack(s, id), id) == MovedToBack(s, id)
  {
    var t := MovedToBack(s, id);
    if HasId(s, id) {
      MovedToBackKeepsUniqueIds(s, id);
      var n := |t| - 1;
      assert t[n].id == id;
      assert IndexOf(t, id) == n;
      assert t[..n] + t[n + 1..] + [t[n]] == t;
    }
  }

  /** Index of the first record whose main layer is on the map, or `|s|`. */
  function FirstAttached(s: seq<LayerRecord>, attached: set<LayerId>): (k: nat)
    ensures k <= |s|
    ensures forall j :: 0 <= j < k ==> s[j].mainLayer.stamp !in attached
    ensures k < |s| ==> s[k].mainLayer.stamp in attached
  {
    if s == [] then 0
    else if s[0].mainLayer.stamp in attached then 0
    else 1 + FirstAttached(s[1..], attached)
  }

  /** Index of the first record whose id is not `initial`, or `|s|`. */
  function FirstOther(s: seq<LayerRecord>, initial: Option<LayerId>): (k: nat)
    ensures k <= |s|
    ensures forall j :: 0 <= j < k ==> Some(s[j].id) == initial
    ensures k < |s| ==> Some(s[k].id) != initial
  {
    if s == [] then 0
    else if Some(s[0].id) != initial then 0
    else 1 + FirstOther(s[1..], initial)
  }

  /** `_getInitialMainMapLayerId`: the first record whose main layer is on the map
      (`hasLayer` compares stamps), else the first record; None for no records. */
  function InitialMainMapLayerId(s: seq<LayerRecord>, attached: set<LayerId>): (r: Option<LayerId>)
    ensures r.None? <==> s == []
    ensures forall k :: 0 <= k < |s| && s[k].mainLayer.stamp in attached &&
              (forall j :: 0 <= j < k ==> s[j].mainLayer.stamp !in attached)
              ==> r == Some(s[k].id)
    ensures (s != [] && forall j :: 0 <= j < |s| ==> s[j].mainLayer.stamp !in attached)
              ==> r == Some(s[0].id)
  {
    var k := FirstAttached(s, attached);
    if k < |s| then Some(s[k].id)
    else if s != [] then Some(s[0].id)
    else None
  }

  /** `_getInitialMiniMapLayerId`: the first id that differs from the given one;
      None (`undefined`) when every record carries it. */
  function InitialMiniMapLayerId(s: seq<LayerRecord>, initial: Option<LayerId>): (r: Option<LayerId>)
    ensures r != None ==> r != initial && HasId(s, r.value)
    ensures forall k :: 0 <= k < |s| && Some(s[k].id) != initial &&
              (forall j :: 0 <= j < k ==> Some(s[j].id) == initial)
              ==> r == Some(s[k].id)
    ensures (forall j :: 0 <= j < |s| ==> Some(s[j].id) == initial) ==> r == None
  {
    var k := FirstOther(s, initial);
    if k < |s| then Some(s[k].id) else None
  }

  /** With distinct ids and at least two records, both initial ids exist and differ. */
  lemma InitialIdsDiffer(s: seq<LayerRecord>, attached: set<LayerId>)
    requires UniqueIds(s) && |s| >= 2
    ensures var main := InitialMainMapLayerId(s, attached);
            var mini := InitialMiniMapLayerId(s, main);
            main.Some? && mini.Some? && main != mini && HasId(s, mini.value)
  {
    var main := InitialMainMapLayerId(s, attached);
    var i :| 0 <= i < |s| && s[i].id == main.value;
    var k := if i == 0 then 1 else 0;
    assert Some(s[k].id) != main;
  }

  /** With a single record the minimap id comes out None. */
  lemma SingleRecordHasNoMiniMapId(s: seq<LayerRecord>, attached: set<LayerId>)
    requires |s| == 1
    ensures InitialMiniMapLayerId(s, InitialMainMapLayerId(s, attached)) == None
  {
    assert InitialMainMapLayerId(s, attached) == Some(s[0].id);
  }
}
