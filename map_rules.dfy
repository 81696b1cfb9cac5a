/**
 * Three small rules of static/js/map.js that do not touch the layer list:
 * the longitude correction of the station popup (map.js:304-306), the
 * target of the 3D camera button (map.js:436-442) and the open/closed state
 * of the layers panel (map.js:340-345).
 */
module MapRules {

  function Abs(x: real): (r: real)
    ensures r >= 0.0 && (r == x || r == -x)
  {
    if x < 0.0 then -x else x
  }

  // ---------------------------------------------------------------------
  // Longitude correction

  /**
   * Where the correction loop leaves the feature's longitude `lng` for a
   * click at longitude `click`: while the two are more than 180 degrees
   * apart, one full turn is added towards the click.
   */
  function Unwrapped(click: real, lng: real): (r: real)
    ensures Abs(click - r) <= 180.0
    ensures Abs(click - lng) <= 180.0 ==> r == lng
    decreases Abs(click - lng).Floor
  {
    if Abs(click - lng) > 180.0 then
      var next := lng + (if click > lng then 360.0 else -360.0);
      assert Abs(click - next).Floor < Abs(click - lng).Floor by {
        TurnShrinks(click, lng);
      }
      Unwrapped(click, next)
    else lng
  }

  /** One turn towards the click brings a longitude more than 180 degrees away strictly closer. */
  lemma TurnShrinks(click: real, lng: real)
    requires Abs(click - lng) > 180.0
    ensures var next := lng + (if click > lng then 360.0 else -360.0);
            Abs(click - next).Floor < Abs(click - lng).Floor
  {
    var next := lng + (if click > lng then 360.0 else -360.0);
    var d, e := Abs(click - lng), Abs(click - next);
    if d >= 360.0 {
      assert e == d - 360.0;
    } else {
      assert e < 180.0;
      assert e.Floor <= 179;
    }
  }

  /** The signed number of turns the loop adds: positive towards the east. */
  function Turns(click: real, lng: real): (k: int)
    ensures k > 0 ==> click - lng > 180.0
    ensures k < 0 ==> lng - click > 180.0
    ensures k == 0 <==> Abs(click - lng) <= 180.0
    decreases Abs(click - lng).Floor
  {
    if Abs(click - lng) > 180.0 then
      var step := if click > lng then 1 else -1;
      TurnShrinks(click, lng);
      step + Turns(click, lng + 360.0 * step as real)
    else 0
  }

  /** The corrected longitude differs from the original by whole turns only. */
  lemma {:induction false} UnwrappedByTurns(click: real, lng: real)
    ensures Unwrapped(click, lng) == lng + 360.0 * Turns(click, lng) as real
    decreases Abs(click - lng).Floor
  {
    if Abs(click - lng) > 180.0 {
      var step := if click > lng then 1 else -1;
      TurnShrinks(click, lng);
      UnwrappedByTurns(click, lng + 360.0 * step as real);
    }
  }

  /**
   * The number of turns is the only one that brings the longitude strictly
   * within 180 degrees of the click: the loop takes no more turns than it must.
   */
  lemma TurnsUnique(click: real, lng: real, m: int)
    requires Abs(click - (lng + 360.0 * m as real)) < 180.0
    ensures m == Turns(click, lng)
  {
    var k := Turns(click, lng);
    UnwrappedByTurns(click, lng);
    var a, b := lng + 360.0 * m as real, lng + 360.0 * k as real;
    assert Abs(click - b) <= 180.0;
    assert -360.0 < a - b < 360.0;
    assert a - b == 360.0 * (m - k) as real;
    assert -1.0 < (m - k) as real < 1.0;
  }

  /** A click at 170 on a station drawn at -170 moves the popup one turn east, to 190. */
  lemma UnwrappedExample()
    ensures Unwrapped(170.0, -170.0) == 190.0 && Turns(170.0, -170.0) == 1
  {
    assert Abs(170.0 - 190.0) == 20.0;
  }

  /**
   * The `while` loop on `coordinates[0]` (a copy of the feature's point):
   * it ends, with the longitude at Unwrapped(click, old longitude) and the
   * latitude untouched.
   */
  method CorrectLongitude(click: real, coordinates: array<real>)
    requires coordinates.Length >= 1
    modifies coordinates
    ensures coordinates[0] == Unwrapped(click, old(coordinates[0]))
    ensures forall i :: 1 <= i < coordinates.Length ==> coordinates[i] == old(coordinates[i])
  {
    while Abs(click - coordinates[0]) > 180.0
      invariant Unwrapped(click, coordinates[0]) == Unwrapped(click, old(coordinates[0]))
      invariant forall i :: 1 <= i < coordinates.Length ==> coordinates[i] == old(coordinates[i])
      decreases Abs(click - coordinates[0]).Floor
    {
      TurnShrinks(click, coordinates[0]);
      coordinates[0] := coordinates[0] + (if click > coordinates[0] then 360.0 else -360.0);
    }
  }

  // ---------------------------------------------------------------------
  // 3D camera button

  /** The pitch and bearing `easeTo` is asked for. */
  datatype Camera = Camera(pitch: real, bearing: real)

  /** A tilted camera is flattened and turned north; a flat one is tilted to 60 and turned to -20. */
  function Toggle3DTarget(pitch: real): (c: Camera)
    ensures c.pitch > 0.0 <==> pitch <= 0.0
    ensures c == Camera(0.0, 0.0) || c == Camera(60.0, -20.0)
  {
    if pitch > 0.0 then Camera(0.0, 0.0) else Camera(60.0, -20.0)
  }

  /** Pressing the button twice returns the camera to its first target: the two targets alternate. */
  lemma Toggle3DAlternates(pitch: real)
    ensures var first := Toggle3DTarget(pitch);
            var second := Toggle3DTarget(first.pitch);
            second != first && Toggle3DTarget(second.pitch) == first
  {
  }

  // ---------------------------------------------------------------------
  // Layers panel

  /** The panel's `style.display` after a click on the layers button. */
  function NextPanelDisplay(display: string): (d: string)
    ensures d == "block" || d == "none"
    ensures d == "block" <==> display != "block"
  {
    if display == "block" then "none" else "block"
  }

  /** Two clicks on the button from an open or closed panel leave it as it was. */
  lemma PanelToggleTwice(display: string)
    requires display == "block" || display == "none"
    ensures NextPanelDisplay(NextPanelDisplay(display)) == display
  {
  }
}
