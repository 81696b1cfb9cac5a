/**
 * The re-ordering static/js/map.js applies once its layers are registered
 * (map.js:276-292): every listed overlay that exists is moved immediately
 * below the first symbol layer, or below `buildings-3d-layer` when the style
 * has no symbol layer; then `buildings-3d-layer` is moved on top.
 */
module LayerOrder {
  import opened Wrappers
  import opened LayerStyle

  const Buildings3D: string := "buildings-3d-layer"

  /** `layersToMove`, in the order the script moves them. */
  const LayersToMove: seq<string> := [
    "catastro-layer", "population-heatmap-layer", "metro-lines-layer", "ampliacio-l1-layer",
    "l12-layer", "metro-stops-layer", "station-demand-layer"
  ]

  /** The list names each overlay once and does not name the 3D buildings. */
  lemma LayersToMoveFacts()
    ensures NoDuplicates(LayersToMove) && Buildings3D !in LayersToMove
  {
  }

  /** `firstSymbolLayer ? firstSymbolLayer.id : 'buildings-3d-layer'`. */
  function Anchor(layers: seq<Layer>): string {
    match FirstSymbol(layers)
    case Some(s) => s
    case None => Buildings3D
  }

  /** One iteration of the `forEach`: move `id` below the anchor if the layer exists. */
  function MoveUnderAnchor(layers: seq<Layer>, id: string): seq<Layer> {
    if Has(layers, id) then Move(layers, id, Some(Anchor(layers))) else layers
  }

  /** The `forEach` over `ids`, one element after the other. */
  function MoveAll(layers: seq<Layer>, ids: seq<string>): seq<Layer>
    decreases |ids|
  {
    if ids == [] then layers
    else MoveUnderAnchor(MoveAll(layers, ids[..|ids| - 1]), ids[|ids| - 1])
  }

  /** The whole re-ordering: the `forEach`, then the 3D buildings on top. */
  function Reordered(layers: seq<Layer>): seq<Layer> {
    BuildingsOnTop(MoveAll(layers, LayersToMove))
  }

  /** `if (map.getLayer('buildings-3d-layer')) map.moveLayer('buildings-3d-layer')`. */
  function BuildingsOnTop(layers: seq<Layer>): seq<Layer> {
    if Has(layers, Buildings3D) then Move(layers, Buildings3D, None) else layers
  }

  // ---------------------------------------------------------------------
  // A closed form of MoveAll

  /** The layers named in `ids` that exist, in the order of `ids`. */
  function Picked(layers: seq<Layer>, ids: seq<string>): seq<Layer>
    decreases |ids|
  {
    if ids == [] then []
    else
      var i := Find(layers, ids[0]);
      (if i < |layers| then [layers[i]] else []) + Picked(layers, ids[1..])
  }

  /** When every listed layer exists, the picked layers are exactly the listed ones, in list order. */
  lemma {:induction false} PickedAllPresent(layers: seq<Layer>, ids: seq<string>)
    requires forall k :: 0 <= k < |ids| ==> Has(layers, ids[k])
    ensures Ids(Picked(layers, ids)) == ids
    decreases |ids|
  {
    if ids != [] {
      PickedAllPresent(layers, ids[1..]);
      var i := Find(layers, ids[0]);
      assert Ids([layers[i]] + Picked(layers, ids[1..])) == [ids[0]] + ids[1..];
    }
  }

  lemma {:induction false} PickedSnoc(layers: seq<Layer>, ids: seq<string>, t: string)
    ensures Picked(layers, ids + [t])
              == Picked(layers, ids) + (if Find(layers, t) < |layers| then [layers[Find(layers, t)]] else [])
    decreases |ids|
  {
    if ids == [] {
      assert ids + [t] == [t];
      assert [t][1..] == [];
    } else {
      var i := Find(layers, ids[0]);
      var head := if i < |layers| then [layers[i]] else [];
      var last := if Find(layers, t) < |layers| then [layers[Find(layers, t)]] else [];
      assert (ids + [t])[0] == ids[0] && (ids + [t])[1..] == ids[1..] + [t];
      assert Picked(layers, ids + [t]) == head + Picked(layers, ids[1..] + [t]);
      PickedSnoc(layers, ids[1..], t);
      assert Picked(layers, ids) == head + Picked(layers, ids[1..]);
      assert head + (Picked(layers, ids[1..]) + last) == (head + Picked(layers, ids[1..])) + last;
    }
  }

  /** The layers not named in `ids`, in their order. */
  function Unpicked(layers: seq<Layer>, ids: seq<string>): seq<Layer>
    decreases |layers|
  {
    if layers == [] then []
    else (if layers[0].id in ids then [] else [layers[0]]) + Unpicked(layers[1..], ids)
  }

  /**
   * The unlisted layers in their order, with the listed ones that exist
   * inserted, in list order, immediately below `anchor`.
   */
  function Placed(layers: seq<Layer>, ids: seq<string>, anchor: string): seq<Layer> {
    var rest := Unpicked(layers, ids);
    var j := Find(rest, anchor);
    rest[..j] + Picked(layers, ids) + rest[j..]
  }

  predicate NoDuplicates(ids: seq<string>) {
    forall i, j :: 0 <= i < j < |ids| ==> ids[i] != ids[j]
  }

  /** No layer the list names is a symbol layer, so moving them leaves the anchor in place. */
  predicate ListedAreNotSymbols(layers: seq<Layer>, ids: seq<string>) {
    forall i :: 0 <= i < |layers| && layers[i].id in ids ==> layers[i].kind != Symbol
  }

  // ---------------------------------------------------------------------
  // Helper facts

  lemma {:induction false} FirstSymbolAppend(a: seq<Layer>, b: seq<Layer>)
    ensures FirstSymbol(a + b) == if FirstSymbol(a).Some? then FirstSymbol(a) else FirstSymbol(b)
  {
    if a != [] {
      assert (a + b)[1..] == a[1..] + b;
      FirstSymbolAppend(a[1..], b);
    } else {
      assert a + b == b;
    }
  }

  lemma {:induction false} UnpickedMembers(layers: seq<Layer>, ids: seq<string>)
    ensures forall k :: 0 <= k < |Unpicked(layers, ids)| ==>
              Unpicked(layers, ids)[k] in layers && Unpicked(layers, ids)[k].id !in ids
    ensures forall i :: 0 <= i < |layers| && layers[i].id !in ids ==> layers[i] in Unpicked(layers, ids)
    decreases |layers|
  {
    if layers != [] {
      UnpickedMembers(layers[1..], ids);
      forall i | 1 <= i < |layers| ensures layers[i] == layers[1..][i - 1] { }
    }
  }

  lemma HasUnpicked(layers: seq<Layer>, ids: seq<string>, x: string)
    ensures Has(Unpicked(layers, ids), x) <==> Has(layers, x) && x !in ids
  {
    var u := Unpicked(layers, ids);
    UnpickedMembers(layers, ids);
    if Has(u, x) {
      var k := Find(u, x);
      var i :| 0 <= i < |layers| && layers[i] == u[k];
      HasAt(layers, i);
    }
    if Has(layers, x) && x !in ids {
      var i := Find(layers, x);
      var k :| 0 <= k < |u| && u[k] == layers[i];
      HasAt(u, k);
    }
  }

  lemma {:induction false} UnpickedUnique(layers: seq<Layer>, ids: seq<string>)
    requires UniqueIds(layers)
    ensures UniqueIds(Unpicked(layers, ids))
    decreases |layers|
  {
    if layers != [] {
      var tail := Unpicked(layers[1..], ids);
      UnpickedUnique(layers[1..], ids);
      if layers[0].id !in ids {
        HasUnpicked(layers[1..], ids, layers[0].id);
        InsertUnique([], layers[0], tail);
      }
    }
  }

  lemma {:induction false} UnpickedAbsent(layers: seq<Layer>, ids: seq<string>, t: string)
    requires !Has(layers, t)
    ensures Unpicked(layers, ids + [t]) == Unpicked(layers, ids)
    decreases |layers|
  {
    if layers != [] {
      assert layers[0].id != t;
      UnpickedAbsent(layers[1..], ids, t);
    }
  }

  lemma TailUnique(layers: seq<Layer>)
    requires UniqueIds(layers) && layers != []
    ensures UniqueIds(layers[1..])
    ensures !Has(layers[1..], layers[0].id)
  {
    forall i, j | 0 <= i < j < |layers[1..]| ensures layers[1..][i].id != layers[1..][j].id {
      assert layers[1..][i] == layers[i + 1] && layers[1..][j] == layers[j + 1];
    }
    forall i | 0 <= i < |layers[1..]| ensures layers[1..][i].id != layers[0].id {
      assert layers[1..][i] == layers[i + 1];
    }
  }

  lemma {:induction false} UnpickedRemove(layers: seq<Layer>, ids: seq<string>, t: string)
    requires UniqueIds(layers) && Has(layers, t) && t !in ids
    ensures Has(Unpicked(layers, ids), t)
    ensures Unpicked(layers, ids + [t]) == RemoveAt(Unpicked(layers, ids), Find(Unpicked(layers, ids), t))
    decreases |layers|
  {
    HasUnpicked(layers, ids, t);
    TailUnique(layers);
    if layers[0].id == t {
      UnpickedAbsent(layers[1..], ids, t);
    } else {
      assert Has(layers[1..], t) by {
        var i := Find(layers, t);
        assert layers[1..][i - 1] == layers[i];
        HasAt(layers[1..], i - 1);
      }
      UnpickedRemove(layers[1..], ids, t);
      UnpickedUnique(layers, ids);
      UnpickedRemoveStep(layers, ids, t);
    }
  }

  /** The case of UnpickedRemove where `t` names a later layer than the first. */
  lemma UnpickedRemoveStep(layers: seq<Layer>, ids: seq<string>, t: string)
    requires layers != [] && layers[0].id != t && UniqueIds(Unpicked(layers, ids))
    requires Has(Unpicked(layers, ids), t)
    requires Has(Unpicked(layers[1..], ids), t)
    requires Unpicked(layers[1..], ids + [t])
               == RemoveAt(Unpicked(layers[1..], ids), Find(Unpicked(layers[1..], ids), t))
    ensures Unpicked(layers, ids + [t]) == RemoveAt(Unpicked(layers, ids), Find(Unpicked(layers, ids), t))
  {
    var pre := if layers[0].id in ids then [] else [layers[0]];
    var more := ids + [t];
    assert (layers[0].id in more) == (layers[0].id in ids);
    SpliceRemove(Unpicked(layers, ids), pre, Unpicked(layers[1..], ids), Unpicked(layers, more), t);
  }

  lemma SpliceRemove(u: seq<Layer>, pre: seq<Layer>, tail: seq<Layer>, full: seq<Layer>, t: string)
    requires u == pre + tail && UniqueIds(u) && Has(tail, t)
    requires full == pre + RemoveAt(tail, Find(tail, t))
    ensures Has(u, t) && full == RemoveAt(u, Find(u, t))
  {
    PrefixRemove(u, pre, tail, Find(tail, t));
  }

  lemma PrefixRemove(u: seq<Layer>, pre: seq<Layer>, tail: seq<Layer>, k: nat)
    requires u == pre + tail && k < |tail| && UniqueIds(u)
    ensures Find(u, tail[k].id) == |pre| + k
    ensures RemoveAt(u, |pre| + k) == pre + RemoveAt(tail, k)
  {
    assert u[|pre| + k] == tail[k];
    FindAt(u, |pre| + k);
    assert u[..|pre| + k] == pre + tail[..k];
    assert u[|pre| + k + 1..] == tail[k + 1..];
  }

  lemma {:induction false} UnpickedFirstSymbol(layers: seq<Layer>, ids: seq<string>)
    requires ListedAreNotSymbols(layers, ids)
    ensures FirstSymbol(Unpicked(layers, ids)) == FirstSymbol(layers)
    decreases |layers|
  {
    if layers != [] {
      assert ListedAreNotSymbols(layers[1..], ids) by {
        forall i | 0 <= i < |layers[1..]| && layers[1..][i].id in ids
          ensures layers[1..][i].kind != Symbol
        {
          assert layers[1..][i] == layers[i + 1];
        }
      }
      UnpickedFirstSymbol(layers[1..], ids);
      var pre := if layers[0].id in ids then [] else [layers[0]];
      FirstSymbolAppend(pre, Unpicked(layers[1..], ids));
    }
  }

  lemma {:induction false} PickedAreListed(layers: seq<Layer>, ids: seq<string>)
    requires ListedAreNotSymbols(layers, ids)
    ensures forall k :: 0 <= k < |Picked(layers, ids)| ==> Picked(layers, ids)[k].kind != Symbol
    decreases |ids|
  {
    if ids != [] {
      assert ListedAreNotSymbols(layers, ids[1..]) by {
        forall i | 0 <= i < |layers| && layers[i].id in ids[1..] ensures layers[i].kind != Symbol {
          assert layers[i].id in ids;
        }
      }
      PickedAreListed(layers, ids[1..]);
    }
  }

  lemma {:induction false} NoSymbolFirstSymbol(s: seq<Layer>)
    requires forall k :: 0 <= k < |s| ==> s[k].kind != Symbol
    ensures FirstSymbol(s) == None
  {
    if s != [] {
      assert forall k :: 0 <= k < |s[1..]| ==> s[1..][k] == s[k + 1];
      NoSymbolFirstSymbol(s[1..]);
    }
  }

  // ---------------------------------------------------------------------
  // Properties of the re-ordering

  /** Every step of the `forEach` only permutes the layers. */
  lemma {:induction false} MoveAllPermutes(layers: seq<Layer>, ids: seq<string>)
    ensures multiset(MoveAll(layers, ids)) == multiset(layers)
    decreases |ids|
  {
    if ids != [] {
      var m := MoveAll(layers, ids[..|ids| - 1]);
      MoveAllPermutes(layers, ids[..|ids| - 1]);
      MovePermutes(m, ids[|ids| - 1], Some(Anchor(m)));
    }
  }

  lemma {:induction false} MoveAllUnique(layers: seq<Layer>, ids: seq<string>)
    requires UniqueIds(layers)
    ensures UniqueIds(MoveAll(layers, ids))
    decreases |ids|
  {
    if ids != [] {
      var m := MoveAll(layers, ids[..|ids| - 1]);
      MoveAllUnique(layers, ids[..|ids| - 1]);
      MovePreservesUniqueIds(m, ids[|ids| - 1], Some(Anchor(m)));
    }
  }

  /**
   * With unique ids and an anchor that exists and is not itself listed, the
   * `forEach` leaves the unlisted layers in their order and gathers the listed
   * layers that exist, in list order, immediately below the anchor.
   */
  lemma {:induction false} MoveAllPlaces(layers: seq<Layer>, ids: seq<string>)
    requires UniqueIds(layers) && NoDuplicates(ids)
    requires Has(layers, Anchor(layers)) && Anchor(layers) !in ids
    requires ListedAreNotSymbols(layers, ids)
    ensures MoveAll(layers, ids) == Placed(layers, ids, Anchor(layers))
    decreases |ids|
  {
    var a := Anchor(layers);
    if ids == [] {
      PlacedNothing(layers, a);
    } else {
      var init := ids[..|ids| - 1];
      var t := ids[|ids| - 1];
      PrefixConditions(layers, ids);
      MoveAllPlaces(layers, init);
      AnchorStable(layers, init, a);
      MoveAllUnique(layers, init);
      if !Has(layers, t) {
        MoveAllPermutes(layers, init);
        StepAbsent(layers, init, t, a);
      } else {
        StepPlaces(layers, init, t, a);
      }
      assert init + [t] == ids;
    }
  }

  lemma PlacedNothing(layers: seq<Layer>, a: string)
    ensures MoveAll(layers, []) == Placed(layers, [], a)
  {
    var u := Unpicked(layers, []);
    UnpickedNoneListed(layers, []);
    var j := Find(u, a);
    assert Picked(layers, []) == [];
    assert u[..j] + [] + u[j..] == u;
  }

  lemma PrefixConditions(layers: seq<Layer>, ids: seq<string>)
    requires ids != [] && NoDuplicates(ids) && ListedAreNotSymbols(layers, ids)
    ensures NoDuplicates(ids[..|ids| - 1]) && ListedAreNotSymbols(layers, ids[..|ids| - 1])
    ensures ids[|ids| - 1] !in ids[..|ids| - 1]
    ensures ids == ids[..|ids| - 1] + [ids[|ids| - 1]]
  {
    var init := ids[..|ids| - 1];
    forall i | 0 <= i < |layers| && layers[i].id in init ensures layers[i].kind != Symbol {
      assert layers[i].id in ids;
    }
    forall q | 0 <= q < |init| ensures init[q] != ids[|ids| - 1] {
      assert init[q] == ids[q];
    }
  }

  /** Moving the listed layers below the anchor leaves the same layer as the anchor. */
  lemma AnchorStable(layers: seq<Layer>, init: seq<string>, a: string)
    requires a == Anchor(layers) && Has(layers, a) && a !in init
    requires ListedAreNotSymbols(layers, init)
    requires MoveAll(layers, init) == Placed(layers, init, a)
    ensures Anchor(MoveAll(layers, init)) == a
  {
    var u := Unpicked(layers, init);
    var p := Picked(layers, init);
    var j := Find(u, a);
    PickedAreListed(layers, init);
    FirstSymbolAround(u, p, j);
    UnpickedFirstSymbol(layers, init);
  }

  lemma FirstSymbolAround(u: seq<Layer>, p: seq<Layer>, j: nat)
    requires j <= |u| && forall k :: 0 <= k < |p| ==> p[k].kind != Symbol
    ensures FirstSymbol(u[..j] + p + u[j..]) == FirstSymbol(u)
  {
    var front, back := u[..j], u[j..];
    assert u[..j] + p + u[j..] == front + (p + back);
    assert front + back == u;
    NoSymbolFirstSymbol(p);
    FirstSymbolAppend(p, back);
    FirstSymbolAppend(front, p + back);
    FirstSymbolAppend(front, back);
  }

  /** The induction step of MoveAllPlaces for a listed layer that does not exist. */
  lemma StepAbsent(layers: seq<Layer>, init: seq<string>, t: string, a: string)
    requires !Has(layers, t) && multiset(MoveAll(layers, init)) == multiset(layers)
    requires MoveAll(layers, init) == Placed(layers, init, a)
    ensures MoveAll(layers, init + [t]) == Placed(layers, init + [t], a)
  {
    var ids := init + [t];
    assert ids[..|ids| - 1] == init;
    var m := MoveAll(layers, init);
    UnpickedAbsent(layers, init, t);
    PickedSnoc(layers, init, t);
    assert Picked(layers, ids) == Picked(layers, init);
    HasPermuted(m, layers, t);
  }

  lemma UnpickedCons(x: Layer, rest: seq<Layer>, ids: seq<string>)
    ensures Unpicked([x] + rest, ids) == (if x.id in ids then [] else [x]) + Unpicked(rest, ids)
  {
    assert ([x] + rest)[1..] == rest;
  }

  lemma {:induction false} UnpickedAppend(a: seq<Layer>, b: seq<Layer>, ids: seq<string>)
    ensures Unpicked(a + b, ids) == Unpicked(a, ids) + Unpicked(b, ids)
    decreases |a|
  {
    if a == [] {
      assert a + b == b;
    } else {
      assert (a + b)[1..] == a[1..] + b;
      UnpickedAppend(a[1..], b, ids);
    }
  }

  /** A list none of whose layers is listed is kept whole. */
  lemma {:induction false} UnpickedNoneListed(a: seq<Layer>, ids: seq<string>)
    requires forall k :: 0 <= k < |a| ==> a[k].id !in ids
    ensures Unpicked(a, ids) == a
    decreases |a|
  {
    if a != [] {
      assert forall k :: 0 <= k < |a[1..]| ==> a[1..][k] == a[k + 1];
      UnpickedNoneListed(a[1..], ids);
    }
  }

  /** A list all of whose layers are listed is dropped whole. */
  lemma {:induction false} UnpickedAllListed(a: seq<Layer>, ids: seq<string>)
    requires forall k :: 0 <= k < |a| ==> a[k].id in ids
    ensures Unpicked(a, ids) == []
    decreases |a|
  {
    if a != [] {
      assert forall k :: 0 <= k < |a[1..]| ==> a[1..][k] == a[k + 1];
      UnpickedAllListed(a[1..], ids);
    }
  }

  lemma SpliceLeft(u: seq<Layer>, p: seq<Layer>, j: nat, k: nat)
    requires k < j < |u|
    ensures (u[..j] + p + u[j..])[k] == u[k]
    ensures RemoveAt(u[..j] + p + u[j..], k) == RemoveAt(u, k)[..j - 1] + p + RemoveAt(u, k)[j - 1..]
    ensures RemoveAt(u, k)[j - 1] == u[j]
  {
    var r := RemoveAt(u, k);
    assert r[..j - 1] == u[..k] + u[k + 1..j];
    assert r[j - 1..] == u[j..];
    assert (u[..j] + p + u[j..])[..k] == u[..k];
    assert (u[..j] + p + u[j..])[k + 1..] == u[k + 1..j] + p + u[j..];
  }

  lemma SpliceRight(u: seq<Layer>, p: seq<Layer>, j: nat, k: nat)
    requires j < k < |u|
    ensures (u[..j] + p + u[j..])[k + |p|] == u[k]
    ensures RemoveAt(u[..j] + p + u[j..], k + |p|) == RemoveAt(u, k)[..j] + p + RemoveAt(u, k)[j..]
    ensures RemoveAt(u, k)[j] == u[j]
  {
    var r := RemoveAt(u, k);
    assert r[..j] == u[..j];
    assert r[j..] == u[j..k] + u[k + 1..];
    assert (u[..j] + p + u[j..])[..k + |p|] == u[..j] + p + u[j..k];
    assert (u[..j] + p + u[j..])[k + |p| + 1..] == u[k + 1..];
  }

  lemma InsertAfterGroup(r: seq<Layer>, p: seq<Layer>, n: nat, x: Layer)
    requires n <= |r|
    ensures var rest := r[..n] + p + r[n..];
            rest[..n + |p|] + [x] + rest[n + |p|..] == r[..n] + (p + [x]) + r[n..]
  {
    var rest := r[..n] + p + r[n..];
    assert rest[..n + |p|] == r[..n] + p;
    assert rest[n + |p|..] == r[n..];
  }

  /** Moving the `k`th unlisted layer below the `j`th appends it to the group already there. */
  lemma MoveJoinsGroup(u: seq<Layer>, p: seq<Layer>, j: nat, k: nat)
    requires j < |u| && k < |u| && u[k].id != u[j].id
    requires UniqueIds(u[..j] + p + u[j..]) && UniqueIds(RemoveAt(u, k))
    ensures Has(u[..j] + p + u[j..], u[k].id)
    ensures Find(RemoveAt(u, k), u[j].id) < |RemoveAt(u, k)|
    ensures var r := RemoveAt(u, k);
            var n := Find(r, u[j].id);
            Move(u[..j] + p + u[j..], u[k].id, Some(u[j].id)) == r[..n] + (p + [u[k]]) + r[n..]
  {
    var m := u[..j] + p + u[j..];
    var r := RemoveAt(u, k);
    var i := if k < j then k else k + |p|;
    var n := if k < j then j - 1 else j;
    if k < j { SpliceLeft(u, p, j, k); } else { SpliceRight(u, p, j, k); }
    FindAt(m, i);
    var rest := RemoveAt(m, i);
    assert rest == r[..n] + p + r[n..];
    RemoveAtUnique(m, i);
    assert rest[n + |p|] == r[n];
    FindAt(rest, n + |p|);
    FindAt(r, n);
    MoveBelowUnfold(m, u[k].id, u[j].id);
    InsertAfterGroup(r, p, n, u[k]);
  }

  lemma UnpickedElement(layers: seq<Layer>, ids: seq<string>, k: nat)
    requires UniqueIds(layers) && k < |Unpicked(layers, ids)|
    ensures Find(layers, Unpicked(layers, ids)[k].id) < |layers|
    ensures Unpicked(layers, ids)[k] == layers[Find(layers, Unpicked(layers, ids)[k].id)]
  {
    UnpickedMembers(layers, ids);
    var x := Unpicked(layers, ids)[k];
    assert x in layers;
    var i :| 0 <= i < |layers| && layers[i] == x;
    FindAt(layers, i);
  }

  /** The induction step of MoveAllPlaces for a listed layer that exists. */
  lemma StepPlaces(layers: seq<Layer>, init: seq<string>, t: string, a: string)
    requires UniqueIds(layers) && Has(layers, t) && t !in init && t != a
    requires Has(layers, a) && a !in init
    requires MoveAll(layers, init) == Placed(layers, init, a)
    requires UniqueIds(MoveAll(layers, init)) && Anchor(MoveAll(layers, init)) == a
    ensures MoveAll(layers, init + [t]) == Placed(layers, init + [t], a)
  {
    var ids := init + [t];
    assert ids[..|ids| - 1] == init;
    var u := Unpicked(layers, init);
    var p := Picked(layers, init);
    HasUnpicked(layers, init, a);
    UnpickedRemove(layers, init, t);
    var j := Find(u, a);
    var k := Find(u, t);
    var x := layers[Find(layers, t)];
    UnpickedElement(layers, init, k);
    PickedSnoc(layers, init, t);
    assert Picked(layers, ids) == p + [x];
    UnpickedUnique(layers, ids);
    MoveJoinsGroup(u, p, j, k);
    assert MoveAll(layers, ids) == Move(MoveAll(layers, init), t, Some(a));
  }

  /** The whole re-ordering only permutes the layers: none is lost, added or altered. */
  lemma ReorderedPermutes(layers: seq<Layer>)
    ensures multiset(Reordered(layers)) == multiset(layers)
  {
    var moved := MoveAll(layers, LayersToMove);
    MoveAllPermutes(layers, LayersToMove);
    MovePermutes(moved, Buildings3D, None);
  }

  /** When the style has 3D buildings, they end up as the top layer. */
  lemma ReorderedBuildingsOnTop(layers: seq<Layer>)
    requires Has(layers, Buildings3D)
    ensures |Reordered(layers)| == |layers|
    ensures Reordered(layers)[|layers| - 1].id == Buildings3D
  {
    var moved := MoveAll(layers, LayersToMove);
    MoveAllPermutes(layers, LayersToMove);
    assert |moved| == |layers| by {
      assert |multiset(moved)| == |multiset(layers)|;
    }
    HasPermuted(moved, layers, Buildings3D);
    MoveOnTop(moved, Buildings3D);
  }

  /** With no anchor in the style, every move of the `forEach` is modelled as a no-op, so nothing changes. */
  lemma {:induction false} MoveAllWithoutAnchor(layers: seq<Layer>, ids: seq<string>)
    requires !Has(layers, Anchor(layers))
    ensures MoveAll(layers, ids) == layers
    decreases |ids|
  {
    if ids != [] {
      MoveAllWithoutAnchor(layers, ids[..|ids| - 1]);
    }
  }
}
