/** What `_switchLayer`, `_onMiniMapClicked` and the tail of `_render` do to the
    switch state, as functions on values, and the properties they keep. */
module Switching {
  import opened Wrappers
  import opened Registry
  import opened MapEngine

  /** The TypeErrors the control would throw part way through a switch. */
  datatype Failure =
    | NewLayerNotFound      // no record, hence no minimap container, for the id switched to
    | PreviousLayerNotFound // `_findLayer` gives null for the previous active id

  /** The control's layer list, active and suggested ids, and the primary map's
      attached layers and fired events. */
  datatype SwitchState = SwitchState(
    layers: seq<LayerRecord>,
    active: Option<LayerId>,
    suggested: Option<LayerId>,
    attached: set<LayerId>,
    fired: seq<MapEvent>)

  /** `_findLayer(this._activeLayerId)`: an unset id finds nothing. */
  function LastActiveLayer(s: seq<LayerRecord>, active: Option<LayerId>): (r: Option<LayerRecord>)
    ensures r.Some? <==> active.Some? && HasId(s, active.value)
    ensures r.Some? ==> r.value in s && r.value.id == active.value
  {
    if active.Some? then FindLayer(s, active.value) else None
  }

  /** `_switchLayer(newId)`. The reorder and the new active/suggested ids are
      written before the previous layer is removed, so a missing previous layer
      fails with those already changed and the primary map untouched. */
  function Switch(st: SwitchState, newId: LayerId): (r: (Outcome<Failure>, SwitchState)) {
    var newActive := FindLayer(st.layers, newId);
    if newActive.None? then (Fail(NewLayerNotFound), st)
    else
      var previous := LastActiveLayer(st.layers, st.active);
      var moved := MovedToBack(st.layers, newId);
      var switched := st.(layers := moved, active := Some(newId), suggested := Some(moved[0].id));
      if previous.None? then (Fail(PreviousLayerNotFound), switched)
      else
        (Pass, switched.(attached := st.attached - {previous.value.mainLayer.stamp} + {newActive.value.mainLayer.stamp}))
  }

  /** `_onMiniMapClicked` for the minimap of `clickedId`, given whether the
      control is expanded. */
  function Click(st: SwitchState, expanded: bool, clickedId: LayerId): (r: (Outcome<Failure>, SwitchState)) {
    if !expanded || Some(clickedId) == st.active then (Pass, st)
    else
      var clicked := FindLayer(st.layers, clickedId);
      var (outcome, switched) := Switch(st, clickedId);
      if outcome.Fail? then (outcome, switched)
      else (Pass, switched.(fired := switched.fired + [BaseLayerChanged(clicked.value.mainLayer)]))
  }

  /** Lines 90-97 of `_render`: seed the active id with the minimap id, then
      switch to the main id. */
  function InitialSwitch(st: SwitchState): (r: (Outcome<Failure>, SwitchState))
    requires st.layers != []
  {
    var main := InitialMainMapLayerId(st.layers, st.attached);
    Switch(st.(active := InitialMiniMapLayerId(st.layers, main)), main.value)
  }

  /** The ids of the registered layers that are on the primary map. */
  function AttachedIds(s: seq<LayerRecord>, attached: set<LayerId>): (ids: set<LayerId>) {
    set r | r in s && r.mainLayer.stamp in attached :: r.id
  }

  /** Switching to a registered id makes it active, moves its record to the back,
      suggests the record now in front, loses no record and fires nothing. */
  lemma SwitchActivates(st: SwitchState, x: LayerId)
    requires HasId(st.layers, x)
    ensures var (outcome, st') := Switch(st, x);
            st'.active == Some(x) &&
            st'.layers[|st'.layers| - 1].id == x &&
            st'.suggested == Some(st'.layers[0].id) &&
            multiset(st'.layers) == multiset(st.layers) &&
            st'.fired == st.fired &&
            (outcome.Fail? <==> LastActiveLayer(st.layers, st.active).None?) &&
            (outcome.Fail? ==> outcome.error == PreviousLayerNotFound && st'.attached == st.attached)
  {
    MovedToBackPermutes(st.layers, x);
  }

  /** Switching to an id with no record fails and changes nothing. */
  lemma SwitchUnknownChangesNothing(st: SwitchState, x: LayerId)
    requires !HasId(st.layers, x)
    ensures Switch(st, x) == (Fail(NewLayerNotFound), st)
  {
  }

  /** With distinct ids and at least two layers, the suggested layer is another
      registered layer than the one switched to. */
  lemma SwitchSuggestsAnother(st: SwitchState, x: LayerId)
    requires UniqueIds(st.layers) && HasId(st.layers, x) && |st.layers| >= 2
    ensures var st' := Switch(st, x).1;
            st'.suggested.Some? && st'.suggested != Some(x) && HasId(st'.layers, st'.suggested.value) &&
            UniqueIds(st'.layers)
  {
    MovedToBackFrontDiffers(st.layers, x);
    MovedToBackKeepsUniqueIds(st.layers, x);
    assert Switch(st, x).1.layers[0].id == Switch(st, x).1.suggested.value;
  }

  /** A switch that completes takes the previous active layer off the primary map
      and puts the new one on: attached becomes (attached - {old}) + {new}. */
  lemma SwitchReplacesMainLayer(st: SwitchState, x: LayerId)
    requires StampedIds(st.layers) && HasId(st.layers, x)
    requires LastActiveLayer(st.layers, st.active).Some?
    ensures Switch(st, x) ==
            (Pass, st.(layers := MovedToBack(st.layers, x), active := Some(x),
                       suggested := Some(MovedToBack(st.layers, x)[0].id),
                       attached := st.attached - {st.active.value} + {x}))
  {
    var previous := LastActiveLayer(st.layers, st.active).value;
    var next := FindLayer(st.layers, x).value;
    assert previous in st.layers && next in st.layers;
  }

  /** If exactly the active layer's main layer is on the map before a completed
      switch, exactly the new one is on it afterwards. */
  lemma SwitchKeepsOneMainLayer(st: SwitchState, x: LayerId)
    requires StampedIds(st.layers) && HasId(st.layers, x) && st.active.Some?
    requires AttachedIds(st.layers, st.attached) == {st.active.value}
    ensures var (outcome, st') := Switch(st, x);
            outcome == Pass && AttachedIds(st'.layers, st'.attached) == {x}
  {
    var a := st.active.value;
    AttachedIsRegistered(st.layers, st.attached, a);
    SwitchReplacesMainLayer(st, x);
    MovedToBackSameRecords(st.layers, x);
    AttachedIdsSameRecords(MovedToBack(st.layers, x), st.layers, st.attached - {a} + {x});
    AttachedAfterReplace(st.layers, st.attached, a, x);
  }

  lemma AttachedIsRegistered(s: seq<LayerRecord>, attached: set<LayerId>, a: LayerId)
    requires a in AttachedIds(s, attached)
    ensures HasId(s, a)
  {
    var r :| r in s && r.mainLayer.stamp in attached && r.id == a;
    var i :| 0 <= i < |s| && s[i] == r;
  }

  lemma AttachedIdsSameRecords(s: seq<LayerRecord>, t: seq<LayerRecord>, attached: set<LayerId>)
    requires forall r :: r in s <==> r in t
    ensures AttachedIds(s, attached) == AttachedIds(t, attached)
  {
  }

  /** Replacing the one attached main layer `a` by the registered `x` leaves
      exactly `x` attached. */
  lemma AttachedAfterReplace(s: seq<LayerRecord>, attached: set<LayerId>, a: LayerId, x: LayerId)
    requires StampedIds(s) && HasId(s, x) && AttachedIds(s, attached) == {a}
    ensures AttachedIds(s, attached - {a} + {x}) == {x}
  {
    var after := attached - {a} + {x};
    var k :| 0 <= k < |s| && s[k].id == x;
    assert s[k] in s && s[k].mainLayer.stamp in after;
    forall y | y in AttachedIds(s, after) ensures y == x {
      var r :| r in s && r.mainLayer.stamp in after && r.id == y;
      assert y == x || r.id in AttachedIds(s, attached);
    }
  }

  /** With distinct ids, switching again to the layer just switched to leaves the
      state as it is: the reorder is already done and its main layer is already
      shown (the code still removes that main layer and adds it straight back). */
  lemma SwitchTwiceIsSwitchOnce(st: SwitchState, x: LayerId)
    requires UniqueIds(st.layers) && StampedIds(st.layers) && HasId(st.layers, x)
    requires LastActiveLayer(st.layers, st.active).Some?
    ensures var once := Switch(st, x).1;
            Switch(once, x) == (Pass, once)
  {
    SwitchReplacesMainLayer(st, x);
    var moved := MovedToBack(st.layers, x);
    var once := Switch(st, x).1;
    assert once.layers == moved && once.active == Some(x) && x in once.attached;
    MovedToBackIdempotent(st.layers, x);
    MovedToBackKeepsStampedIds(st.layers, x);
    assert HasId(moved, x) by {
      assert moved[|moved| - 1].id == x;
    }
    SwitchReplacesMainLayer(once, x);
    assert once.attached - {x} + {x} == once.attached;
  }

  /** A click while collapsed, or on the active layer's minimap, does nothing. */
  lemma ClickIgnored(st: SwitchState, expanded: bool, c: LayerId)
    requires !expanded || st.active == Some(c)
    ensures Click(st, expanded, c) == (Pass, st)
  {
  }

  /** A click that switches fires exactly one `baselayerchanged`, carrying the
      clicked record's main layer; a click whose switch fails fires nothing. */
  lemma ClickFiresOnce(st: SwitchState, c: LayerId)
    requires st.active != Some(c) && HasId(st.layers, c)
    ensures var (outcome, st') := Click(st, true, c);
            st'.active == Some(c) && st'.layers == MovedToBack(st.layers, c) &&
            (outcome.Pass? ==> st'.fired == st.fired + [BaseLayerChanged(FindLayer(st.layers, c).value.mainLayer)]) &&
            (outcome.Fail? ==> st'.fired == st.fired)
  {
    SwitchActivates(st, c);
  }

  /** With a single layer the seeded previous id is None, so the first switch
      fails at the removal of the previous main layer, after the active and
      suggested ids are set and with the primary map untouched. */
  lemma SingleLayerRenderFails(st: SwitchState)
    requires |st.layers| == 1
    ensures var (outcome, st') := InitialSwitch(st);
            outcome == Fail(PreviousLayerNotFound) &&
            st'.active == Some(st.layers[0].id) && st'.suggested == Some(st.layers[0].id) &&
            st'.layers == st.layers && st'.attached == st.attached
  {
    SingleRecordHasNoMiniMapId(st.layers, st.attached);
    var x := st.layers[0].id;
    assert HasId(st.layers, x);
    assert IndexOf(st.layers, x) == 0;
    assert st.layers[..0] + st.layers[1..] + [st.layers[0]] == st.layers;
  }

  /** With distinct ids and at least two layers, the first switch completes: the
      chosen main layer is active and shown, the seeded minimap layer's main layer
      is removed, and a different layer is suggested. */
  lemma InitialSwitchCompletes(st: SwitchState)
    requires UniqueIds(st.layers) && StampedIds(st.layers) && |st.layers| >= 2
    ensures InitialMiniMapLayerId(st.layers, InitialMainMapLayerId(st.layers, st.attached)).Some?
    ensures var main := InitialMainMapLayerId(st.layers, st.attached).value;
            var mini := InitialMiniMapLayerId(st.layers, Some(main)).value;
            var (outcome, st') := InitialSwitch(st);
            outcome == Pass && st'.active == Some(main) &&
            st'.attached == st.attached - {mini} + {main} &&
            st'.suggested.Some? && st'.suggested != st'.active
  {
    var main := InitialMainMapLayerId(st.layers, st.attached);
    InitialIdsDiffer(st.layers, st.attached);
    var seeded := st.(active := InitialMiniMapLayerId(st.layers, main));
    var i :| 0 <= i < |st.layers| && st.layers[i].id == main.value;
    assert HasId(st.layers, main.value);
    SwitchReplacesMainLayer(seeded, main.value);
    SwitchSuggestsAnother(seeded, main.value);
  }

  /** Three layers A, B, C with only A on the primary map: the first render
      seeds B and switches to A, leaving [B, C, A] with B suggested; a switch to
      B then leaves [C, A, B] with C suggested and only B on the map. */
  lemma {:induction false} ThreeLayerWalkthrough(a: LayerRecord, b: LayerRecord, c: LayerRecord)
    requires a.id != b.id && b.id != c.id && a.id != c.id
    requires StampedIds([a, b, c])
    ensures var (o1, st1) := InitialSwitch(SwitchState([a, b, c], None, None, {a.id}, []));
            o1 == Pass && st1.layers == [b, c, a] && st1.active == Some(a.id) &&
            st1.suggested == Some(b.id) && st1.attached == {a.id}
    ensures var st1 := InitialSwitch(SwitchState([a, b, c], None, None, {a.id}, [])).1;
            var (o2, st2) := Switch(st1, b.id);
            o2 == Pass && st2.layers == [c, a, b] && st2.active == Some(b.id) &&
            st2.suggested == Some(c.id) && st2.attached == {b.id} && st2.fired == []
  {
    var s := [a, b, c];
    assert a in s && b in s && c in s;
    assert InitialMainMapLayerId(s, {a.id}) == Some(a.id);
    assert InitialMiniMapLayerId(s, Some(a.id)) == Some(b.id);
    assert IndexOf(s, a.id) == 0 && IndexOf(s, b.id) == 1;
    assert MovedToBack(s, a.id) == [b, c, a];
    var st1 := InitialSwitch(SwitchState(s, None, None, {a.id}, [])).1;
    assert st1.layers == [b, c, a];
    var t := [b, c, a];
    assert IndexOf(t, b.id) == 0 && IndexOf(t, a.id) == 2;
    assert MovedToBack(t, b.id) == [c, a, b];
  }
}
