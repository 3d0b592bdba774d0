/** The layer list of docs/src/composables/useLayerGroup.ts: an ordered list
    of layer entries changed in place (append, remove the first entry with
    an id, forward a property write to an entry, replace the whole list),
    and `getLayers`, which turns the visible entries, last first, into the
    deck.gl layers to draw. */
module LayerGroups {
  import opened Common

  /** An entry of the list as the group reads it: `layerType` names the
      deck.gl class `getLayers` instantiates, and `hasSet` says whether the
      entry has a `set` function. */
  datatype LayerItem = LayerItem(
    id: string,
    layerType: string,
    visible: bool,
    state: map<string, Value>,
    data: Value,
    hasSet: bool)

  /** What `getLayers` builds for one entry: the deck.gl class and the props
      object handed to its constructor. */
  datatype Descriptor = Descriptor(layerType: string, props: map<string, Value>)

  /** An entry's `set(prop, value)`: code outside the group, so a parameter
      that gives the entry as it is after the call. */
  type Setter = (LayerItem, string, Value) -> LayerItem

  /** `layers.findIndex(l => l.id === id)`: the first index holding the id,
      or -1. `layers.find` is the entry at that index. */
  function FindIndex(layers: seq<LayerItem>, id: string): (k: int)
    ensures -1 <= k < |layers|
    ensures k == -1 <==> forall i :: 0 <= i < |layers| ==> layers[i].id != id
    ensures k >= 0 ==> layers[k].id == id && forall i :: 0 <= i < k ==> layers[i].id != id
  {
    if layers == [] then -1
    else if layers[0].id == id then 0
    else
      var k := FindIndex(layers[1..], id);
      assert forall i :: 0 < i < |layers| ==> layers[i] == layers[1..][i - 1];
      if k == -1 then -1 else k + 1
  }

  /** The list without its first entry holding `id`; the same list when no
      entry holds it. */
  function RemoveFirst(layers: seq<LayerItem>, id: string): (r: seq<LayerItem>)
    ensures |r| == if FindIndex(layers, id) == -1 then |layers| else |layers| - 1
    ensures forall l :: l in r ==> l in layers
  {
    if layers == [] then []
    else if layers[0].id == id then layers[1..]
    else [layers[0]] + RemoveFirst(layers[1..], id)
  }

  /** The list after `set(prop, value)` on its first entry holding `id`,
      when that entry has a `set`; the same list otherwise. */
  function UpdateFirst(layers: seq<LayerItem>, id: string, prop: string, value: Value, apply: Setter): (r: seq<LayerItem>)
    ensures |r| == |layers|
    ensures FindIndex(layers, id) == -1 ==> r == layers
  {
    if layers == [] then []
    else if layers[0].id == id then
      (if layers[0].hasSet then [apply(layers[0], prop, value)] else [layers[0]]) + layers[1..]
    else [layers[0]] + UpdateFirst(layers[1..], id, prop, value, apply)
  }

  /** The entries whose id is not `id`, in order. */
  function Others(layers: seq<LayerItem>, id: string): seq<LayerItem> {
    if layers == [] then []
    else (if layers[0].id == id then [] else [layers[0]]) + Others(layers[1..], id)
  }

  /** How many entries hold `id`. */
  function Matches(layers: seq<LayerItem>, id: string): nat {
    if layers == [] then 0
    else (if layers[0].id == id then 1 else 0) + Matches(layers[1..], id)
  }

  /** The visible entries, in list order: `layers.filter(l => l.visible)`. */
  function VisibleLayers(layers: seq<LayerItem>): (r: seq<LayerItem>)
    ensures |r| <= |layers|
    ensures forall l :: l in r <==> l in layers && l.visible
  {
    if layers == [] then []
    else
      assert layers == [layers[0]] + layers[1..];
      (if layers[0].visible then [layers[0]] else []) + VisibleLayers(layers[1..])
  }

  /** The order in which `getLayers` lists the entries: the visible ones,
      last first (`filter(...).reverse()`). */
  function DrawOrder(layers: seq<LayerItem>): seq<LayerItem> {
    var visible := VisibleLayers(layers);
    seq(|visible|, i requires 0 <= i < |visible| => visible[|visible| - 1 - i])
  }

  /** The props object of lines 69-74: `id` and `pickable` first, then the
      entry's state spread over them, then `data`, which the state cannot
      override. */
  function Describe(layer: LayerItem, pickable: bool, now: nat): (d: Descriptor)
    ensures d.layerType == layer.layerType
    ensures d.props.Keys == layer.state.Keys + {"id", "pickable", "data"}
    ensures d.props["data"] == layer.data
    ensures forall k :: k in layer.state && k != "data" ==> d.props[k] == layer.state[k]
    ensures "id" !in layer.state ==> d.props["id"] == Str(layer.id + "-" + Decimal(now))
    ensures "pickable" !in layer.state ==> d.props["pickable"] == Bool(pickable)
  {
    Descriptor(
      layer.layerType,
      map["id" := Str(layer.id + "-" + Decimal(now)), "pickable" := Bool(pickable)] + layer.state + map["data" := layer.data])
  }

  class LayerGroup {
    var layers: seq<LayerItem>

    /** Lines 18-20. */
    constructor(layers: seq<LayerItem>)
      ensures this.layers == layers
    {
      this.layers := layers;
    }

    /** Lines 23-25: `push` appends at the end. */
    method AddLayer(layer: LayerItem)
      modifies this
      ensures layers == old(layers) + [layer]
    {
      layers := layers + [layer];
    }

    /** Lines 28-33: `findIndex`, then `splice(index, 1)` when found. */
    method RemoveLayer(layerId: string)
      modifies this
      ensures layers == RemoveFirst(old(layers), layerId)
    {
      RemoveFirstIsSplice(layers, layerId);
      var index := FindIndex(layers, layerId);
      if index != -1 {
        layers := layers[..index] + layers[index + 1..];
      }
    }

    /** Lines 36-41: `find`, then `set(prop, value)` when the entry has a
        `set` function. */
    method UpdateLayerProperty(layerId: string, prop: string, value: Value, apply: Setter)
      modifies this
      ensures layers == UpdateFirst(old(layers), layerId, prop, value, apply)
    {
      UpdateFirstAtIndex(layers, layerId, prop, value, apply);
      var index := FindIndex(layers, layerId);
      if index != -1 && layers[index].hasSet {
        layers := layers[index := apply(layers[index], prop, value)];
      }
    }

    /** Lines 44-46. */
    method SetOpacity(layerId: string, opacity: Value, apply: Setter)
      requires opacity.Num? || opacity.NaN?
      modifies this
      ensures layers == UpdateFirst(old(layers), layerId, "opacity", opacity, apply)
    {
      UpdateLayerProperty(layerId, "opacity", opacity, apply);
    }

    /** Lines 49-51. */
    method SetVisibility(layerId: string, visible: bool, apply: Setter)
      modifies this
      ensures layers == UpdateFirst(old(layers), layerId, "visible", Bool(visible), apply)
    {
      UpdateLayerProperty(layerId, "visible", Bool(visible), apply);
    }

    /** Lines 54-57: empty the list (`length = 0`), then push the new
        order; the list is then `newOrder`, entry for entry. */
    method SetLayerOrder(newOrder: seq<LayerItem>)
      modifies this
      ensures layers == newOrder
    {
      layers := layers[..0];
      layers := layers + newOrder;
    }

    /** Lines 60-78: one descriptor per visible entry, the list order
        reversed, with `pickable` set on the last descriptor only. `now`
        is `Date.now()`. */
    function GetLayers(now: nat): (r: seq<Descriptor>)
      reads this
      ensures |r| == |VisibleLayers(layers)|
      ensures forall i :: 0 <= i < |r| ==>
        r[i] == Describe(VisibleLayers(layers)[|r| - 1 - i], i == |r| - 1, now)
    {
      var order := DrawOrder(layers);
      seq(|order|, i requires 0 <= i < |order| => Describe(order[i], i == |order| - 1, now))
    }
  }

  // ---------------------------------------------------------------------
  // Properties

  /** Lines 29-31: removing by `findIndex` and `splice` removes the first
      entry holding the id, and nothing when none holds it. */
  lemma {:induction false} RemoveFirstIsSplice(layers: seq<LayerItem>, id: string)
    ensures var k := FindIndex(layers, id);
      RemoveFirst(layers, id) == if k == -1 then layers else layers[..k] + layers[k + 1..]
  {
    if layers != [] && layers[0].id != id {
      RemoveFirstIsSplice(layers[1..], id);
      var k := FindIndex(layers[1..], id);
      if k != -1 {
        assert layers[..k + 1] == [layers[0]] + layers[1..][..k];
        assert layers[k + 2..] == layers[1..][k + 1..];
      }
    }
  }

  /** Lines 37-39: `find` and `set` change the first entry holding the id,
      when it has a `set`, and nothing else. */
  lemma {:induction false} UpdateFirstAtIndex(layers: seq<LayerItem>, id: string, prop: string, value: Value, apply: Setter)
    ensures var r, k := UpdateFirst(layers, id, prop, value, apply), FindIndex(layers, id);
      && |r| == |layers|
      && forall i :: 0 <= i < |layers| ==>
           r[i] == if i == k && layers[i].hasSet then apply(layers[i], prop, value) else layers[i]
  {
    if layers != [] && layers[0].id != id {
      UpdateFirstAtIndex(layers[1..], id, prop, value, apply);
      var r := UpdateFirst(layers, id, prop, value, apply);
      assert forall i :: 0 < i < |layers| ==> r[i] == UpdateFirst(layers[1..], id, prop, value, apply)[i - 1];
    }
  }

  /** Lines 28-33: removal takes away exactly one entry holding the id when
      there is one, and keeps every entry with another id, in order. */
  lemma {:induction false} RemoveFirstKeepsOthers(layers: seq<LayerItem>, id: string)
    ensures Others(RemoveFirst(layers, id), id) == Others(layers, id)
    ensures Matches(RemoveFirst(layers, id), id) == if Matches(layers, id) == 0 then 0 else Matches(layers, id) - 1
    ensures |RemoveFirst(layers, id)| == if Matches(layers, id) == 0 then |layers| else |layers| - 1
  {
    if layers != [] {
      var r := RemoveFirst(layers, id);
      if layers[0].id == id {
        MatchesOthers(layers[1..], id);
      } else {
        RemoveFirstKeepsOthers(layers[1..], id);
        assert r[0] == layers[0] && r[1..] == RemoveFirst(layers[1..], id);
      }
    }
  }

  /** The entries with the id and those without it make up the list. */
  lemma {:induction false} MatchesOthers(layers: seq<LayerItem>, id: string)
    ensures Matches(layers, id) + |Others(layers, id)| == |layers|
    ensures Matches(layers, id) == 0 <==> forall i :: 0 <= i < |layers| ==> layers[i].id != id
  {
    if layers != [] {
      MatchesOthers(layers[1..], id);
      assert forall i :: 0 < i < |layers| ==> layers[i] == layers[1..][i - 1];
    }
  }

  /** Lines 36-51: an update keeps the length, every id and every entry
      with another id; it changes no entry when the id is absent or its
      first holder has no `set`. */
  lemma {:induction false} UpdateFirstKeepsOthers(layers: seq<LayerItem>, id: string, prop: string, value: Value, apply: Setter)
    requires forall l, p, v :: apply(l, p, v).id == l.id
    ensures |UpdateFirst(layers, id, prop, value, apply)| == |layers|
    ensures Others(UpdateFirst(layers, id, prop, value, apply), id) == Others(layers, id)
    ensures Matches(UpdateFirst(layers, id, prop, value, apply), id) == Matches(layers, id)
    ensures (FindIndex(layers, id) == -1 || !layers[FindIndex(layers, id)].hasSet) ==>
      UpdateFirst(layers, id, prop, value, apply) == layers
  {
    UpdateFirstAtIndex(layers, id, prop, value, apply);
    if layers != [] {
      var r := UpdateFirst(layers, id, prop, value, apply);
      if layers[0].id == id {
        assert r[0].id == id && r[1..] == layers[1..];
      } else {
        UpdateFirstKeepsOthers(layers[1..], id, prop, value, apply);
        assert r[0] == layers[0] && r[1..] == UpdateFirst(layers[1..], id, prop, value, apply);
      }
    }
  }

  /** The filter keeps list order: the visible entries of `a + b` are those
      of `a`, then those of `b`. */
  lemma {:induction false} VisibleConcat(a: seq<LayerItem>, b: seq<LayerItem>)
    ensures VisibleLayers(a + b) == VisibleLayers(a) + VisibleLayers(b)
  {
    if a == [] {
      assert a + b == b;
    } else {
      assert (a + b)[0] == a[0] && (a + b)[1..] == a[1..] + b;
      VisibleConcat(a[1..], b);
    }
  }

  /** The first visible entry in list order heads the filtered list. */
  lemma {:induction false} FirstVisible(layers: seq<LayerItem>, k: nat)
    requires k < |layers| && layers[k].visible
    requires forall j :: 0 <= j < k ==> !layers[j].visible
    ensures VisibleLayers(layers) != [] && VisibleLayers(layers)[0] == layers[k]
  {
    if k > 0 {
      FirstVisible(layers[1..], k - 1);
    }
  }

  /** Lines 61-66: with no entry overriding `pickable` in its state, exactly
      one descriptor is pickable when some entry is visible: the last one,
      which describes the first visible entry in list order. */
  lemma OnlyFirstVisiblePickable(g: LayerGroup, now: nat, k: nat)
    requires forall i :: 0 <= i < |g.layers| ==> "pickable" !in g.layers[i].state
    requires k < |g.layers| && g.layers[k].visible
    requires forall j :: 0 <= j < k ==> !g.layers[j].visible
    ensures var r := g.GetLayers(now);
      && r != []
      && r[|r| - 1] == Describe(g.layers[k], true, now)
      && forall i :: 0 <= i < |r| ==> (r[i].props["pickable"] == Bool(true) <==> i == |r| - 1)
  {
    FirstVisible(g.layers, k);
    var r := g.GetLayers(now);
    var visible := VisibleLayers(g.layers);
    forall i | 0 <= i < |r|
      ensures r[i].props["pickable"] == Bool(i == |r| - 1)
    {
      assert visible[|r| - 1 - i] in g.layers;
    }
  }

  /** How many entries are hidden. */
  function HiddenCount(layers: seq<LayerItem>): nat {
    if layers == [] then 0
    else (if layers[0].visible then 0 else 1) + HiddenCount(layers[1..])
  }

  /** Line 61: the filter drops exactly the hidden entries, so `getLayers`
      gives one descriptor per entry that is not hidden. */
  lemma {:induction false} VisibleCount(layers: seq<LayerItem>)
    ensures |VisibleLayers(layers)| + HiddenCount(layers) == |layers|
  {
    if layers != [] {
      VisibleCount(layers[1..]);
    }
  }

  /** Lines 61-63: `getLayers` describes exactly the visible entries:
      hidden entries are left out (and, by `VisibleCount`, there is one
      descriptor per entry that is not hidden). */
  lemma DrawOrderHoldsVisible(layers: seq<LayerItem>, layer: LayerItem)
    ensures layer in DrawOrder(layers) <==> layer in layers && layer.visible
  {
    var visible := VisibleLayers(layers);
    var order := DrawOrder(layers);
    if layer in order {
      var i :| 0 <= i < |order| && order[i] == layer;
      assert visible[|visible| - 1 - i] == layer;
    }
    if layer in visible {
      var j :| 0 <= j < |visible| && visible[j] == layer;
      assert order[|visible| - 1 - j] == layer;
    }
  }

  /** Lines 61-63: a visible entry added with `addLayer` is drawn first,
      and the older entries follow in the order they had. */
  lemma AddedLayerComesFirst(before: seq<LayerItem>, layer: LayerItem)
    requires layer.visible
    ensures DrawOrder(before + [layer]) == [layer] + DrawOrder(before)
  {
    VisibleConcat(before, [layer]);
    assert VisibleLayers([layer]) == [layer];
  }

  /** Line 70: the id of a descriptor carries the time of the call, so two
      calls at different times give an entry two different ids. */
  lemma IdsChangeWithTime(layer: LayerItem, now: nat, now': nat)
    requires "id" !in layer.state && now != now'
    ensures Describe(layer, true, now).props["id"] != Describe(layer, true, now').props["id"]
    ensures Describe(layer, false, now).props["id"] != Describe(layer, false, now').props["id"]
  {
    var p := layer.id + "-";
    if p + Decimal(now) == p + Decimal(now') {
      assert Decimal(now) == (p + Decimal(now))[|p|..];
      assert Decimal(now') == (p + Decimal(now'))[|p|..];
      DecimalInjective(now, now');
    }
  }
}
