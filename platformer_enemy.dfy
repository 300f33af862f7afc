/** The platformer's patrolling enemies. */
module PlatformerEnemy {
  import opened Options
  import opened Geometry
  import opened PlatformerConfig
  import opened PlatformerPlatforms

  /** The `enemy_type` tag. Only `Shooter` differs in behaviour: it is larger and fires. */
  datatype EnemyKind = Basic | Flying | Fast | Shooter

  function KindWidth(kind: EnemyKind): int
  {
    if kind == Shooter then SHOOTER_ENEMY_WIDTH else ENEMY_WIDTH
  }

  function KindHeight(kind: EnemyKind): int
  {
    if kind == Shooter then SHOOTER_ENEMY_HEIGHT else ENEMY_HEIGHT
  }

  /** An integer box, the shape `check_collision` compares against. */
  datatype Body = Body(x: int, y: int, width: int, height: int)

  function BodyRect(b: Body): Rect
  {
    Rect(b.x as real, b.y as real, b.width as real, b.height as real)
  }

  /** Centre of a body with integer halving, where explosions are spawned. */
  function BodyCentre(b: Body): (c: (int, int))
    ensures b.width >= 0 && b.height >= 0 ==> b.x <= c.0 <= b.x + b.width && b.y <= c.1 <= b.y + b.height
    ensures b.width >= 0 ==> 2 * c.0 == 2 * b.x + b.width || 2 * c.0 == 2 * b.x + b.width - 1
  {
    (b.x + b.width / 2, b.y + b.height / 2)
  }

  // ------------------------------------------------------------ patrol

  /**
   * One patrol step, on the offset `d = x - start_x`: move two pixels in the
   * current direction, then turn round when at or past either end.
   */
  function PatrolStep(d: int, direction: int, patrol: int): (int, int)
  {
    var d' := d + ENEMY_SPEED * direction;
    (d', if d' <= 0 || d' >= patrol then -direction else direction)
  }

  /**
   * The states a patrol can reach from its start (offset 0, moving right):
   * an even offset within [0, patrol + 1], not past the end it is heading to.
   */
  ghost predicate PatrolInvariant(d: int, direction: int, patrol: int)
  {
    patrol >= 1
    && (direction == 1 || direction == -1)
    && d % 2 == 0
    && 0 <= d <= patrol + 1
    && (direction == 1 ==> d < patrol)
    && (direction == -1 ==> d > 0)
  }

  /** A patrol starts inside the invariant and every step keeps it there. */
  lemma PatrolStepKeepsInvariant(d: int, direction: int, patrol: int)
    requires PatrolInvariant(d, direction, patrol)
    ensures PatrolInvariant(PatrolStep(d, direction, patrol).0, PatrolStep(d, direction, patrol).1, patrol)
  {
  }

  /** The patrol position after `k` frames from the start. */
  function PatrolAfter(patrol: int, k: nat): (int, int)
  {
    if k == 0 then (0, 1)
    else var s := PatrolAfter(patrol, k - 1); PatrolStep(s.0, s.1, patrol)
  }

  /**
   * However long it patrols, an enemy stays within `patrol + 1` pixels to the
   * right of its start and never left of it; with an even patrol distance it
   * never passes the far end.
   */
  lemma {:induction false} PatrolStaysInRange(patrol: int, k: nat)
    requires patrol >= 1
    ensures 0 <= PatrolAfter(patrol, k).0 <= patrol + 1
    ensures patrol % 2 == 0 ==> PatrolAfter(patrol, k).0 <= patrol
    ensures PatrolInvariant(PatrolAfter(patrol, k).0, PatrolAfter(patrol, k).1, patrol)
  {
    if k > 0 {
      var s := PatrolAfter(patrol, k - 1);
      PatrolStaysInRange(patrol, k - 1);
      PatrolStepKeepsInvariant(s.0, s.1, patrol);
    }
  }

  /** Until it reaches the far end, an enemy walks right two pixels a frame. */
  lemma {:induction false} PatrolOutbound(patrol: int, k: nat)
    requires 2 * k < patrol
    ensures PatrolAfter(patrol, k) == (2 * k, 1)
  {
    if k > 0 {
      PatrolOutbound(patrol, k - 1);
    }
  }

  /** With an odd patrol distance the far end is overshot by one pixel. */
  lemma OddPatrolOvershoots()
    ensures PatrolAfter(31, 16) == (32, -1)
  {
    PatrolOutbound(31, 15);
  }

  // ------------------------------------------------------------ the enemy

  class Enemy {
    const kind: EnemyKind
    const width: int
    const height: int
    const startX: int
    const patrolDistance: int
    var x: int
    var y: int
    var direction: int
    var shootCooldown: int

    ghost predicate Valid()
      reads this
    {
      width == KindWidth(kind) && height == KindHeight(kind)
      && (direction == 1 || direction == -1)
      && 0 <= shootCooldown <= ENEMY_SHOOT_COOLDOWN_FRAMES
      && (kind != Shooter ==> shootCooldown == 0)
    }

    /** The enemy is where its patrol from `start_x` can take it. */
    ghost predicate Patrolling()
      reads this
    {
      PatrolInvariant(x - startX, direction, patrolDistance)
    }

    function Box(): Body
      reads this
    {
      Body(x, y, width, height)
    }

    /**
     * A new enemy faces right at its patrol start; a shooter's first shot is
     * delayed by an arbitrary number of frames in [0, 90].
     */
    constructor (x0: int, y0: int, patrol: int, k: EnemyKind)
      ensures Valid()
      ensures kind == k && x == x0 && y == y0 && startX == x0 && patrolDistance == patrol && direction == 1
      ensures patrol >= 1 ==> Patrolling()
    {
      kind := k;
      width := KindWidth(k);
      height := KindHeight(k);
      startX := x0;
      patrolDistance := patrol;
      x, y := x0, y0;
      direction := 1;
      if k == Shooter {
        var c :| 0 <= c <= ENEMY_SHOOT_COOLDOWN_FRAMES;
        shootCooldown := c;
      } else {
        shootCooldown := 0;
      }
    }

    /**
     * `Enemy.update`: one patrol step, then one pixel of fall that the first
     * overlapping platform (at the new x) cancels by putting the enemy on top
     * of it, then the shooter's cooldown tick.
     */
    method Update(platforms: seq<Platform>)
      requires Valid()
      modifies this`x, this`y, this`direction, this`shootCooldown
      ensures Valid()
      ensures (x - startX, direction) == PatrolStep(old(x) - startX, old(direction), patrolDistance)
      ensures old(Patrolling()) ==> Patrolling()
      ensures y == SettledY(Body(x, old(y) + 1, width, height), platforms)
      ensures shootCooldown == if kind == Shooter && old(shootCooldown) > 0 then old(shootCooldown) - 1 else old(shootCooldown)
    {
      var nx := x + ENEMY_SPEED * direction;
      var nd := if nx <= startX || nx >= startX + patrolDistance then -direction else direction;
      assert (nx - startX, nd) == PatrolStep(x - startX, direction, patrolDistance);
      if Patrolling() {
        PatrolStepKeepsInvariant(x - startX, direction, patrolDistance);
        assert PatrolInvariant(nx - startX, nd, patrolDistance);
      }
      var ny := Settle(Body(nx, y + 1, width, height), platforms);
      var nc := if kind == Shooter && shootCooldown > 0 then shootCooldown - 1 else shootCooldown;
      x, direction, y, shootCooldown := nx, nd, ny, nc;
    }
  }

  /**
   * The enemy has taken one `update` from position (`x0`, `y0`), direction
   * `d0` and cooldown `c0`, as `Enemy.Update` states it.
   */
  ghost predicate Stepped(e: Enemy, x0: int, y0: int, d0: int, c0: int, platforms: seq<Platform>)
    reads e
  {
    (e.x - e.startX, e.direction) == PatrolStep(x0 - e.startX, d0, e.patrolDistance)
    && e.y == SettledY(Body(e.x, y0 + 1, e.width, e.height), platforms)
    && e.shootCooldown == (if e.kind == Shooter && c0 > 0 then c0 - 1 else c0)
  }

  /**
   * Where the platform loop of `Enemy.update` leaves a box: the first
   * platform in list order that the box overlaps puts the box's bottom on its
   * top; with none, the box stays where it is. Since the box overlaps that
   * platform, this never moves it down.
   */
  function SettledY(box: Body, platforms: seq<Platform>): (y: int)
    ensures match FirstOverlap(BodyRect(box), platforms)
      case Some(k) => y == platforms[k].y - box.height
      case None => y == box.y
    ensures y <= box.y
  {
    match FirstOverlap(BodyRect(box), platforms)
    case Some(k) => platforms[k].y - box.height
    case None => box.y
  }

  /** The platform loop itself, scanning until the first overlap. */
  method Settle(box: Body, platforms: seq<Platform>) returns (y: int)
    ensures y == SettledY(box, platforms)
  {
    var i := 0;
    while i < |platforms|
      invariant 0 <= i <= |platforms|
      invariant forall j :: 0 <= j < i ==> !Overlaps(BodyRect(box), PlatformRect(platforms[j]))
    {
      if Overlaps(BodyRect(box), PlatformRect(platforms[i])) {
        return platforms[i].y - box.height;
      }
      i := i + 1;
    }
    return box.y;
  }
}
