/** The map layer of docs/src/composables/useLayer.ts: an id, the deck.gl
    layer class it draws with, a state record of drawing properties with
    defaults for opacity and visibility, and the layer's data. The state
    record is a map from property name to value; the accessors read and
    write single keys of it. */
module Layers {
  import opened Common

  /** The deck.gl layer class, known by its `layerName` and an opaque
      handle for the rest of it. */
  datatype LayerType = LayerType(layerName: string, handle: nat)

  /** The constructor's options. An omitted option is `Undefined`; omitted
      `props` is the empty map (spreading `undefined` adds no key). */
  datatype LayerOptions = LayerOptions(opacity: Value, visible: Value, props: map<string, Value>, data: Value)

  /** The state record of lines 33-37: `opacity` and `visible` default to 1
      and true when the options give null or nothing, and every key of
      `props` is spread after them, so it overrides them. */
  function InitialState(options: LayerOptions): (state: map<string, Value>)
    ensures state.Keys == options.props.Keys + {"opacity", "visible"}
    ensures forall k :: k in options.props ==> state[k] == options.props[k]
    ensures "opacity" !in options.props ==>
      state["opacity"] == (if options.opacity.Undefined? || options.opacity.Null? then Num(1.0) else options.opacity)
    ensures "visible" !in options.props ==>
      state["visible"] == (if options.visible.Undefined? || options.visible.Null? then Bool(true) else options.visible)
  {
    map["opacity" := OrElse(options.opacity, Num(1.0)), "visible" := OrElse(options.visible, Bool(true))] + options.props
  }

  /** A state that differs from `before` only in `key`, which now holds
      `value`. */
  ghost predicate WritesOnly(before: map<string, Value>, after: map<string, Value>, key: string, value: Value) {
    && after.Keys == before.Keys + {key}
    && after[key] == value
    && forall k :: k in before && k != key ==> after[k] == before[k]
  }

  class Layer {
    const id: string
    const layerType: LayerType
    const typeName: string
    var state: map<string, Value>
    var data: Value

    /** Lines 28-40: `typeName` is the type's `layerName`, the state is
        defaulted as `InitialState` says, and `data` is null unless the
        options give a truthy one. */
    constructor(id: string, layerType: LayerType, options: LayerOptions)
      ensures this.id == id && this.layerType == layerType
      ensures typeName == layerType.layerName
      ensures state == InitialState(options)
      ensures data == (if Truthy(options.data) then options.data else Null)
    {
      this.id := id;
      this.layerType := layerType;
      this.typeName := layerType.layerName;
      state := InitialState(options);
      data := if Truthy(options.data) then options.data else Null;
    }

    /** `this.state[key]`: undefined when the key is absent. */
    function Get(key: string): (v: Value)
      reads this
      ensures key in state ==> v == state[key]
      ensures key !in state ==> v == Undefined
    {
      if key in state then state[key] else Undefined
    }

    /** Lines 42-44. */
    function FillColor(): (v: Value)
      reads this
      ensures "getFillColor" in state ==> v == state["getFillColor"]
      ensures "getFillColor" !in state ==> v == Undefined
    {
      Get("getFillColor")
    }

    /** Lines 50-52. */
    function LineColor(): (v: Value)
      reads this
      ensures "getLineColor" in state ==> v == state["getLineColor"]
      ensures "getLineColor" !in state ==> v == Undefined
    {
      Get("getLineColor")
    }

    /** Lines 58-60. */
    function Opacity(): (v: Value)
      reads this
      ensures "opacity" in state ==> v == state["opacity"]
      ensures "opacity" !in state ==> v == Undefined
    {
      Get("opacity")
    }

    /** Lines 66-68. */
    function Visible(): (v: Value)
      reads this
      ensures "visible" in state ==> v == state["visible"]
      ensures "visible" !in state ==> v == Undefined
    {
      Get("visible")
    }

    /** Lines 42-48: the setter writes `state.getFillColor` and nothing
        else, and the getter then returns the value written. */
    method SetFillColor(value: Value)
      modifies this
      ensures WritesOnly(old(state), state, "getFillColor", value)
      ensures FillColor() == value
      ensures forall k :: k != "getFillColor" ==> Get(k) == old(Get(k))
      ensures data == old(data)
    {
      state := state["getFillColor" := value];
    }

    /** Lines 50-56: as `SetFillColor`, for `state.getLineColor`. */
    method SetLineColor(value: Value)
      modifies this
      ensures WritesOnly(old(state), state, "getLineColor", value)
      ensures LineColor() == value
      ensures forall k :: k != "getLineColor" ==> Get(k) == old(Get(k))
      ensures data == old(data)
    {
      state := state["getLineColor" := value];
    }

    /** Lines 58-64: as `SetFillColor`, for `state.opacity`. The value is
        any number, NaN included. */
    method SetOpacity(value: Value)
      requires value.Num? || value.NaN?
      modifies this
      ensures WritesOnly(old(state), state, "opacity", value)
      ensures Opacity() == value
      ensures forall k :: k != "opacity" ==> Get(k) == old(Get(k))
      ensures data == old(data)
    {
      state := state["opacity" := value];
    }

    /** Lines 66-72: as `SetFillColor`, for `state.visible`. */
    method SetVisible(value: bool)
      modifies this
      ensures WritesOnly(old(state), state, "visible", Bool(value))
      ensures Visible() == Bool(value)
      ensures forall k :: k != "visible" ==> Get(k) == old(Get(k))
      ensures data == old(data)
    {
      state := state["visible" := Bool(value)];
    }
  }
}
