/**
 * The small entities of the platformer: the player's bullets, the shooter
 * enemies' bullets, explosions, coins and hearts. Each `update` of the source
 * becomes a function from the old record to the new one; the game keeps the
 * records in its lists and replaces an element where the source mutates it.
 */
module PlatformerItems {
  import opened Geometry
  import opened PlatformerConfig

  // ---------------------------------------------------------------- bullets

  /** A player bullet: `speed` is BULLET_SPEED times the direction (+1 right, -1 left). */
  datatype Bullet = Bullet(x: int, y: real, direction: int, speed: int, alive: bool)

  function NewBullet(x: int, y: real, direction: int): Bullet
  {
    Bullet(x, y, direction, BULLET_SPEED * direction, true)
  }

  function BulletRect(b: Bullet): Rect
  {
    Rect(b.x as real, b.y, BULLET_WIDTH as real, BULLET_HEIGHT as real)
  }

  /** `Bullet.update`: move by `speed`, and die once outside [0, WORLD_WIDTH]. */
  function BulletStep(b: Bullet): (r: Bullet)
    ensures r.x == b.x + b.speed && r.y == b.y && r.direction == b.direction && r.speed == b.speed
    ensures r.alive <==> b.alive && 0 <= r.x <= WORLD_WIDTH
  {
    var x := b.x + b.speed;
    b.(x := x, alive := if x < 0 || x > WORLD_WIDTH then false else b.alive)
  }

  /** The bullet after `k` frames. */
  function BulletAfter(b: Bullet, k: nat): Bullet
  {
    if k == 0 then b else BulletStep(BulletAfter(b, k - 1))
  }

  /**
   * A bullet fired inside the world moves in a straight line and stays alive
   * exactly as long as its position has not left [0, WORLD_WIDTH]: it dies on
   * the first frame its x crosses a world edge, and never comes back.
   */
  lemma {:induction false} BulletAfterFrames(b: Bullet, k: nat)
    requires b.alive && 0 <= b.x <= WORLD_WIDTH
    requires b.speed == BULLET_SPEED || b.speed == -BULLET_SPEED
    ensures BulletAfter(b, k).x == b.x + k * b.speed && BulletAfter(b, k).speed == b.speed
    ensures BulletAfter(b, k).alive <==> 0 <= b.x + k * b.speed <= WORLD_WIDTH
  {
    if k > 0 {
      BulletAfterFrames(b, k - 1);
      assert b.x + k * b.speed == b.x + (k - 1) * b.speed + b.speed;
      if b.speed > 0 {
        assert (k - 1) * b.speed >= 0;
      } else {
        assert (k - 1) * b.speed <= 0;
      }
    }
  }

  // ---------------------------------------------------------- enemy bullets

  /** A shooter's bullet; its velocity is fixed when it is fired. */
  datatype EnemyBullet = EnemyBullet(x: real, y: real, vx: real, vy: real, alive: bool)

  function EnemyBulletRect(b: EnemyBullet): Rect
  {
    Rect(b.x, b.y, ENEMY_BULLET_WIDTH, ENEMY_BULLET_HEIGHT)
  }

  /** Outside the world horizontally, or more than 100 above or below the screen. */
  predicate EnemyBulletOut(x: real, y: real)
  {
    x < 0.0 || x > WORLD_WIDTH as real || y < -100.0 || y > (SCREEN_HEIGHT + 100) as real
  }

  /** `EnemyBullet.update`. */
  function EnemyBulletStep(b: EnemyBullet): (r: EnemyBullet)
    ensures r.vx == b.vx && r.vy == b.vy
    ensures r.alive <==> b.alive && !EnemyBulletOut(b.x + b.vx, b.y + b.vy)
  {
    var x := b.x + b.vx;
    var y := b.y + b.vy;
    EnemyBullet(x, y, b.vx, b.vy, if EnemyBulletOut(x, y) then false else b.alive)
  }

  // ------------------------------------------------------------- explosions

  datatype Explosion = Explosion(x: int, y: int, frame: int, done: bool)

  function NewExplosion(x: int, y: int): Explosion
  {
    Explosion(x, y, 0, false)
  }

  /** `Explosion.update`: count a frame; done from EXPLOSION_LIFETIME_FRAMES on. */
  function ExplosionStep(e: Explosion): (r: Explosion)
    ensures r.x == e.x && r.y == e.y && r.frame == e.frame + 1
    ensures r.done <==> e.done || r.frame >= EXPLOSION_LIFETIME_FRAMES
  {
    var f := e.frame + 1;
    e.(frame := f, done := if f >= EXPLOSION_LIFETIME_FRAMES then true else e.done)
  }

  function ExplosionAfter(e: Explosion, k: nat): Explosion
  {
    if k == 0 then e else ExplosionStep(ExplosionAfter(e, k - 1))
  }

  /** A new explosion is done after exactly EXPLOSION_LIFETIME_FRAMES updates. */
  lemma {:induction false} ExplosionLifetime(x: int, y: int, k: nat)
    ensures ExplosionAfter(NewExplosion(x, y), k).frame == k
    ensures ExplosionAfter(NewExplosion(x, y), k).done <==> k >= EXPLOSION_LIFETIME_FRAMES
  {
    if k > 0 {
      ExplosionLifetime(x, y, k - 1);
    }
  }

  // ------------------------------------------------------ coins and hearts

  datatype Coin = Coin(x: int, y: int, collected: bool)

  function CoinRect(c: Coin): Rect
  {
    Rect(c.x as real, c.y as real, COIN_SIZE as real, COIN_SIZE as real)
  }

  /** `Coin.check_collision`: an uncollected coin overlapping the player's box. */
  predicate CoinHit(c: Coin, player: Rect)
  {
    !c.collected && Overlaps(player, CoinRect(c))
  }

  datatype Heart = Heart(x: real, y: real, collected: bool, healAmount: int)

  const HEART_SIZE: real := 30.0

  function NewHeart(x: real, y: real): Heart
  {
    Heart(x, y, false, HEART_HEAL)
  }

  function HeartRect(h: Heart): Rect
  {
    Rect(h.x, h.y, HEART_SIZE, HEART_SIZE)
  }

  /** `Heart.check_collision`. */
  predicate HeartHit(h: Heart, player: Rect)
  {
    !h.collected && Overlaps(player, HeartRect(h))
  }

  /** Health after picking up a heart: raised by its heal amount, capped at MAX_HEALTH. */
  function Healed(health: int, h: Heart): (r: int)
    requires 0 < health <= MAX_HEALTH && h.healAmount >= 0
    ensures health <= r <= MAX_HEALTH && r <= health + h.healAmount
    ensures r == MAX_HEALTH || r == health + h.healAmount
  {
    if health + h.healAmount < MAX_HEALTH then health + h.healAmount else MAX_HEALTH
  }
}
