/**
 * The pieces of the platformer's world generator that do not touch the game
 * object: platform kinds by distance, the placement rule for floating
 * platforms, the search for a free height, and the heart positions.
 */
module PlatformerWorld {
  import opened Geometry
  import opened PlatformerConfig
  import opened PlatformerPlatforms

  /** Ground segments sit on the bottom 40 pixels of the screen. */
  const GROUND_Y: int := SCREEN_HEIGHT - 40
  const GROUND_HEIGHT: int := 40
  const FLOATING_HEIGHT: int := 20
  /** Height used for a floating platform when no free height was found. */
  const FALLBACK_Y: int := SCREEN_HEIGHT - 120
  /** Floating platform heights are drawn from [FLOAT_MIN_Y, FLOAT_MAX_Y]. */
  const FLOAT_MIN_Y: int := SCREEN_HEIGHT - 200
  const FLOAT_MAX_Y: int := SCREEN_HEIGHT - 80
  const PLACEMENT_ATTEMPTS: int := 50
  const MIN_VERTICAL_GAP: int := 80

  /** Floating platforms are stone past x = 2000, ice past x = 1000, grass before. */
  function KindAt(x: int): (k: PlatformKind)
    ensures k == Grass <==> x <= 1000
    ensures k == Stone <==> x > 2000
  {
    if x > 2000 then Stone else if x > 1000 then Ice else Grass
  }

  function Abs(v: int): int { if v < 0 then -v else v }

  /**
   * A floating platform at `x` of width `w` and height `y` may sit next to
   * `p` when their horizontal overlap is at most a tenth of `w` and their
   * tops are at least 80 pixels apart.
   */
  predicate Compatible(x: int, w: int, y: int, p: Platform)
  {
    !(10 * SpanOverlap(x, w, p.x, p.width) > w || Abs(y - p.y) < MIN_VERTICAL_GAP)
  }

  /** The candidate is compatible with every existing platform. */
  ghost predicate PlacementOk(x: int, w: int, y: int, platforms: seq<Platform>)
  {
    forall i :: 0 <= i < |platforms| ==> Compatible(x, w, y, platforms[i])
  }

  /**
   * The inner loop of the placement search: scan the platforms, stopping at
   * the first one the candidate clashes with.
   */
  method CheckPlacement(x: int, w: int, y: int, platforms: seq<Platform>) returns (valid: bool)
    ensures valid <==> PlacementOk(x, w, y, platforms)
  {
    valid := true;
    var i := 0;
    while i < |platforms|
      invariant 0 <= i <= |platforms|
      invariant PlacementOk(x, w, y, platforms[..i])
    {
      if !Compatible(x, w, y, platforms[i]) {
        valid := false;
        return;
      }
      assert platforms[..i + 1] == platforms[..i] + [platforms[i]];
      i := i + 1;
    }
    assert platforms[..i] == platforms;
  }

  /**
   * The outer loop: up to 50 random heights in [400, 520]; the first one
   * compatible with every platform is used, otherwise the fallback 480.
   * `tried` lists the heights drawn, in order: every draw before the last
   * clashed, and the fallback is used only after 50 draws that all clashed.
   */
  method FindFloatingY(x: int, w: int, platforms: seq<Platform>) returns (y: int, found: bool, ghost tried: seq<int>)
    ensures FLOAT_MIN_Y <= y <= FLOAT_MAX_Y
    ensures 1 <= |tried| <= PLACEMENT_ATTEMPTS
    ensures forall i :: 0 <= i < |tried| ==> FLOAT_MIN_Y <= tried[i] <= FLOAT_MAX_Y
    ensures forall i :: 0 <= i < |tried| - 1 ==> !PlacementOk(x, w, tried[i], platforms)
    ensures found ==> y == tried[|tried| - 1] && PlacementOk(x, w, y, platforms)
    ensures !found ==> y == FALLBACK_Y && |tried| == PLACEMENT_ATTEMPTS && !PlacementOk(x, w, tried[|tried| - 1], platforms)
  {
    found := false;
    var attempts := 0;
    y := FALLBACK_Y;
    tried := [];
    while !found && attempts < PLACEMENT_ATTEMPTS
      invariant attempts == |tried| <= PLACEMENT_ATTEMPTS
      invariant FLOAT_MIN_Y <= y <= FLOAT_MAX_Y
      invariant forall i :: 0 <= i < |tried| ==> FLOAT_MIN_Y <= tried[i] <= FLOAT_MAX_Y
      invariant forall i :: 0 <= i < |tried| - 1 ==> !PlacementOk(x, w, tried[i], platforms)
      invariant tried != [] ==> y == tried[|tried| - 1] && (found <==> PlacementOk(x, w, y, platforms))
      invariant tried == [] ==> !found
      decreases PLACEMENT_ATTEMPTS - attempts
    {
      var candidate :| FLOAT_MIN_Y <= candidate <= FLOAT_MAX_Y;
      y := candidate;
      found := CheckPlacement(x, w, y, platforms);
      tried := tried + [y];
      attempts := attempts + 1;
    }
    if !found {
      y := FALLBACK_Y;
    }
  }

  /**
   * Because every check includes the ground, which lies 560 pixels down, a
   * floating platform whose height was found by the search is never lower
   * than 480: the 80-pixel gap rule applies whatever the horizontal overlap.
   */
  lemma FoundHeightClearsGround(x: int, w: int, y: int, platforms: seq<Platform>, g: nat)
    requires g < |platforms| && platforms[g].y == GROUND_Y
    requires FLOAT_MIN_Y <= y <= FLOAT_MAX_Y
    requires PlacementOk(x, w, y, platforms)
    ensures y <= GROUND_Y - MIN_VERTICAL_GAP
  {
    assert Compatible(x, w, y, platforms[g]);
  }

  /** The hearts sit at 20%, 45% and 70% of the world, 150 pixels above the bottom. */
  const HEART_XS: seq<real> := [WORLD_WIDTH as real * 0.2, WORLD_WIDTH as real * 0.45, WORLD_WIDTH as real * 0.7]
  const HEART_Y: real := (SCREEN_HEIGHT - 150) as real
}
