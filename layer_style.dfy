/**
 * The style of a MapLibre map as static/js/map.js uses it: an ordered list of
 * layers, drawn bottom (index 0) to top, each with its id, its type, its
 * `visibility` layout property and its numeric paint properties; and the
 * effect on that list of the library calls the script makes
 * (`getLayer`, `addLayer`, `setLayoutProperty`, `setPaintProperty`,
 * `moveLayer`, `getStyle().layers.find`).
 */
module LayerStyle {
  import opened Wrappers

  /** The `visibility` layout property: 'visible' or 'none'. */
  datatype Visibility = Visible | Hidden

  /** The layer types of the MapLibre style specification. */
  datatype LayerType =
    | Background | Fill | Line | Symbol | Circle | Heatmap | FillExtrusion | Raster | Hillshade

  /** One style layer; `paint` holds the numeric paint properties only. */
  datatype Layer = Layer(id: string, kind: LayerType, visibility: Visibility, paint: map<string, real>)

  function Ids(layers: seq<Layer>): (ids: seq<string>)
    ensures |ids| == |layers|
    ensures forall i :: 0 <= i < |layers| ==> ids[i] == layers[i].id
  {
    seq(|layers|, i requires 0 <= i < |layers| => layers[i].id)
  }


  predicate UniqueIds(layers: seq<Layer>) {
    forall i, j :: 0 <= i < j < |layers| ==> layers[i].id != layers[j].id
  }

  /** Position of the first layer named `id`, or `|layers|` when there is none. */
  function Find(layers: seq<Layer>, id: string): (i: nat)
    ensures i <= |layers|
    ensures i < |layers| ==> layers[i].id == id
    ensures forall j :: 0 <= j < i ==> layers[j].id != id
  {
    if layers == [] then 0
    else if layers[0].id == id then 0
    else 1 + Find(layers[1..], id)
  }

  /** `map.getLayer(id)` is not undefined: some layer is named `id`. */
  predicate Has(layers: seq<Layer>, id: string) {
    Find(layers, id) < |layers|
  }

  lemma HasAt(layers: seq<Layer>, k: nat)
    requires k < |layers|
    ensures Has(layers, layers[k].id) && Find(layers, layers[k].id) <= k
  {
  }

  lemma HasNamed(layers: seq<Layer>, id: string)
    requires id in Ids(layers)
    ensures Has(layers, id)
  {
    var k :| 0 <= k < |layers| && Ids(layers)[k] == id;
    HasAt(layers, k);
  }

  /** `map.getStyle().layers.find(l => l.type === 'symbol')`, by id. */
  function FirstSymbol(layers: seq<Layer>): Option<string> {
    if layers == [] then None
    else if layers[0].kind == Symbol then Some(layers[0].id)
    else FirstSymbol(layers[1..])
  }

  /** FirstSymbol finds the lowest symbol layer, and finds nothing only when there is none. */
  lemma {:induction false} FirstSymbolIsFirst(layers: seq<Layer>)
    ensures FirstSymbol(layers).None? <==> forall i :: 0 <= i < |layers| ==> layers[i].kind != Symbol
    ensures FirstSymbol(layers).Some? ==>
              exists i :: 0 <= i < |layers| && layers[i].kind == Symbol && layers[i].id == FirstSymbol(layers).value
                          && forall j :: 0 <= j < i ==> layers[j].kind != Symbol
  {
    if layers != [] && layers[0].kind != Symbol {
      var tail := layers[1..];
      FirstSymbolIsFirst(tail);
      forall i | 1 <= i < |layers| ensures layers[i] == tail[i - 1] { }
      if FirstSymbol(tail).Some? {
        var k :| 0 <= k < |tail| && tail[k].kind == Symbol && tail[k].id == FirstSymbol(tail).value
                 && forall j :: 0 <= j < k ==> tail[j].kind != Symbol;
        assert layers[k + 1] == tail[k];
        assert forall j :: 0 <= j < k + 1 ==> layers[j].kind != Symbol;
      }
    }
  }

  lemma IdsAppend(a: seq<Layer>, b: seq<Layer>)
    ensures Ids(a + b) == Ids(a) + Ids(b)
  {
  }

  lemma IdsPrefix(a: seq<Layer>, n: nat)
    requires n <= |a|
    ensures Ids(a[..n]) == Ids(a)[..n]
  {
    assert forall k :: 0 <= k < n ==> Ids(a[..n])[k] == Ids(a)[..n][k];
  }

  /** Two styles with the same layers, in any order, have the same ids. */
  lemma HasPermuted(a: seq<Layer>, b: seq<Layer>, id: string)
    requires multiset(a) == multiset(b)
    ensures Has(a, id) <==> Has(b, id)
  {
    if Has(a, id) {
      var x := a[Find(a, id)];
      assert x in multiset(b);
      var i :| 0 <= i < |b| && b[i] == x;
      HasAt(b, i);
    }
    if Has(b, id) {
      var x := b[Find(b, id)];
      assert x in multiset(a);
      var i :| 0 <= i < |a| && a[i] == x;
      HasAt(a, i);
    }
  }

  /** `addLayer(layer)`: appended on top; an id already in the style is taken to leave the style unchanged. */
  function Add(layers: seq<Layer>, layer: Layer): (r: seq<Layer>)
    ensures Has(layers, layer.id) ==> r == layers
    ensures !Has(layers, layer.id) ==> r == layers + [layer]
  {
    if Has(layers, layer.id) then layers else layers + [layer]
  }

  /** `setLayoutProperty(id, 'visibility', v)`; a missing layer leaves the style as it is. */
  function SetVisibility(layers: seq<Layer>, id: string, v: Visibility): (r: seq<Layer>)
    ensures |r| == |layers|
    ensures forall i :: 0 <= i < |r| ==>
              r[i] == if layers[i].id == id then layers[i].(visibility := v) else layers[i]
  {
    seq(|layers|, i requires 0 <= i < |layers| =>
      if layers[i].id == id then layers[i].(visibility := v) else layers[i])
  }

  /** `setPaintProperty(id, prop, x)` for a numeric paint property. */
  function SetPaint(layers: seq<Layer>, id: string, prop: string, x: real): (r: seq<Layer>)
    ensures |r| == |layers|
    ensures forall i :: 0 <= i < |r| ==>
              r[i] == if layers[i].id == id then layers[i].(paint := layers[i].paint[prop := x]) else layers[i]
  {
    seq(|layers|, i requires 0 <= i < |layers| =>
      if layers[i].id == id then layers[i].(paint := layers[i].paint[prop := x]) else layers[i])
  }

  function RemoveAt(layers: seq<Layer>, i: nat): (r: seq<Layer>)
    requires i < |layers|
    ensures |r| == |layers| - 1
  {
    layers[..i] + layers[i + 1..]
  }

  /**
   * `moveLayer(id, before)`: the layer is taken out and put back immediately
   * below `before`, or on top when `before` is omitted. Moving a layer that
   * is not in the style, or below a layer that is not, is taken to change
   * nothing (an assumption of this model; the script never does either); so
   * does moving a layer below itself.
   */
  function Move(layers: seq<Layer>, id: string, before: Option<string>): seq<Layer>
  {
    var i := Find(layers, id);
    if i == |layers| || before == Some(id) then layers
    else
      var rest := RemoveAt(layers, i);
      match before
      case None => rest + [layers[i]]
      case Some(b) =>
        var j := Find(rest, b);
        if j == |rest| then layers else rest[..j] + [layers[i]] + rest[j..]
  }

  lemma MoveBelowUnfold(layers: seq<Layer>, id: string, b: string)
    requires Find(layers, id) < |layers| && b != id
    requires Find(RemoveAt(layers, Find(layers, id)), b) < |layers| - 1
    ensures var rest := RemoveAt(layers, Find(layers, id));
            var j := Find(rest, b);
            Move(layers, id, Some(b)) == rest[..j] + [layers[Find(layers, id)]] + rest[j..]
  {
  }

  // ---------------------------------------------------------------------
  // Properties of the library calls

  /** Inserting a layer anywhere adds exactly that layer to the multiset. */
  lemma InsertPermutes(rest: seq<Layer>, j: nat, x: Layer)
    requires j <= |rest|
    ensures multiset(rest[..j] + [x] + rest[j..]) == multiset(rest) + multiset{x}
  {
    assert rest == rest[..j] + rest[j..];
  }

  /** Moving a layer only permutes the style: no layer is lost, added or altered. */
  lemma MovePermutes(layers: seq<Layer>, id: string, before: Option<string>)
    ensures multiset(Move(layers, id, before)) == multiset(layers)
  {
    var i := Find(layers, id);
    if i < |layers| && before != Some(id) {
      var x, rest := layers[i], RemoveAt(layers, i);
      assert layers == layers[..i] + [x] + layers[i + 1..];
      assert multiset(layers) == multiset(rest) + multiset{x};
      if before.Some? {
        var j := Find(rest, before.value);
        if j < |rest| {
          assert Move(layers, id, before) == rest[..j] + [x] + rest[j..];
          InsertPermutes(rest, j, x);
        }
      } else {
        assert Move(layers, id, before) == rest + [x];
      }
    }
  }

  lemma RemoveAtUnique(layers: seq<Layer>, i: nat)
    requires UniqueIds(layers) && i < |layers|
    ensures UniqueIds(RemoveAt(layers, i))
    ensures !Has(RemoveAt(layers, i), layers[i].id)
  {
    var r := RemoveAt(layers, i);
    forall k | 0 <= k < |r| ensures r[k] == layers[if k < i then k else k + 1] { }
  }

  lemma InsertUnique(front: seq<Layer>, x: Layer, back: seq<Layer>)
    requires UniqueIds(front + back) && !Has(front + back, x.id)
    ensures UniqueIds(front + [x] + back)
  {
    var r := front + [x] + back;
    var fb := front + back;
    forall k | 0 <= k < |r| && k != |front|
      ensures r[k] == fb[if k < |front| then k else k - 1]
    { }
  }

  lemma MovePreservesUniqueIds(layers: seq<Layer>, id: string, before: Option<string>)
    requires UniqueIds(layers)
    ensures UniqueIds(Move(layers, id, before))
  {
    var i := Find(layers, id);
    if i < |layers| && before != Some(id) {
      var rest := RemoveAt(layers, i);
      RemoveAtUnique(layers, i);
      if before.None? {
        InsertUnique(rest, layers[i], []);
      } else {
        var j := Find(rest, before.value);
        if j < |rest| {
          assert rest == rest[..j] + rest[j..];
          InsertUnique(rest[..j], layers[i], rest[j..]);
        }
      }
    }
  }

  /** Moving the top layer on top again changes nothing. */
  lemma MoveTopmost(layers: seq<Layer>)
    requires UniqueIds(layers) && layers != []
    ensures Move(layers, layers[|layers| - 1].id, None) == layers
  {
    var n := |layers| - 1;
    FindAt(layers, n);
    assert layers[..n] + [layers[n]] == layers;
  }

  /** Moving a layer without `before` puts it on top and keeps the others in their order. */
  lemma MoveOnTop(layers: seq<Layer>, id: string)
    requires Has(layers, id)
    ensures |Move(layers, id, None)| == |layers|
    ensures Move(layers, id, None)[|layers| - 1] == layers[Find(layers, id)]
    ensures Move(layers, id, None)[..|layers| - 1] == RemoveAt(layers, Find(layers, id))
  {
  }

  /** Moving a layer below another existing layer leaves it directly below that layer. */
  lemma MoveBelowAdjacent(layers: seq<Layer>, id: string, b: string)
    requires UniqueIds(layers) && Has(layers, id) && Has(layers, b) && id != b
    ensures Find(Move(layers, id, Some(b)), id) + 1 == Find(Move(layers, id, Some(b)), b)
    ensures Find(Move(layers, id, Some(b)), b) < |layers|
  {
    var i := Find(layers, id);
    var rest := RemoveAt(layers, i);
    RemoveAtUnique(layers, i);
    var k := Find(layers, b);
    assert rest[if k < i then k else k - 1] == layers[k];
    var j := Find(rest, b);
    var r := Move(layers, id, Some(b));
    MoveBelowUnfold(layers, id, b);
    assert r[j] == layers[i] && r[j + 1] == rest[j];
    MovePreservesUniqueIds(layers, id, Some(b));
    FindAt(r, j);
    FindAt(r, j + 1);
  }

  lemma FindAt(layers: seq<Layer>, p: nat)
    requires UniqueIds(layers) && p < |layers|
    ensures Find(layers, layers[p].id) == p
  {
  }

  /** Switching a hidden layer on and then off again restores the style exactly. */
  lemma VisibilityRoundTrip(layers: seq<Layer>, id: string)
    requires forall i :: 0 <= i < |layers| && layers[i].id == id ==> layers[i].visibility == Hidden
    ensures SetVisibility(SetVisibility(layers, id, Visible), id, Hidden) == layers
  {
    var r := SetVisibility(SetVisibility(layers, id, Visible), id, Hidden);
    assert forall i :: 0 <= i < |r| ==> r[i] == layers[i];
  }

  /** Only the last of two visibility writes to one layer counts. */
  lemma VisibilityLastWriteWins(layers: seq<Layer>, id: string, v: Visibility, w: Visibility)
    ensures SetVisibility(SetVisibility(layers, id, v), id, w) == SetVisibility(layers, id, w)
  {
  }

  /** Visibility and paint writes change no id, no type and no order. */
  lemma SettersKeepIds(layers: seq<Layer>, id: string, v: Visibility, prop: string, x: real)
    ensures Ids(SetVisibility(layers, id, v)) == Ids(layers)
    ensures Ids(SetPaint(layers, id, prop, x)) == Ids(layers)
    ensures forall i :: 0 <= i < |layers| ==>
              SetVisibility(layers, id, v)[i].kind == layers[i].kind && SetPaint(layers, id, prop, x)[i].kind == layers[i].kind
  {
  }
}
