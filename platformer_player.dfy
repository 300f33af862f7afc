/** The platformer's player: movement, landing, damage, the cheat code and shooting. */
module PlatformerPlayer {
  import opened Options
  import opened Geometry
  import opened PlatformerConfig
  import opened PlatformerPlatforms
  import opened PlatformerItems

  function PlayerRect(x: int, y: real): Rect
  {
    Rect(x as real, y, PLAYER_WIDTH as real, PLAYER_HEIGHT as real)
  }

  // ------------------------------------------------------------ landing pass

  /** Vertical state threaded through the platform pass of `Player.update`. */
  datatype Fall = Fall(y: real, velY: real, onGround: bool)

  /**
   * One platform of the pass: a falling player that overlaps it is put on top
   * and stops; a rising one is put below it and stops; otherwise nothing.
   */
  function LandStep(x: int, f: Fall, p: Platform): Fall
  {
    if !Overlaps(PlayerRect(x, f.y), PlatformRect(p)) then f
    else if f.velY > 0.0 then Fall((p.y - PLAYER_HEIGHT) as real, 0.0, true)
    else if f.velY < 0.0 then Fall((p.y + p.height) as real, 0.0, f.onGround)
    else f
  }

  /** The pass over all platforms in list order, starting from `f`. */
  function Land(x: int, f: Fall, platforms: seq<Platform>): Fall
    decreases |platforms|
  {
    if platforms == [] then f
    else LandStep(x, Land(x, f, platforms[..|platforms| - 1]), platforms[|platforms| - 1])
  }

  /**
   * Standing on a platform implies zero vertical speed after the pass: the snap
   * that sets `on_ground` zeroes the speed, and a later overlap with zero speed
   * changes nothing.
   */
  lemma {:induction false} LandRestsWhenGrounded(x: int, f: Fall, platforms: seq<Platform>)
    requires f.onGround ==> f.velY == 0.0
    ensures Land(x, f, platforms).onGround ==> Land(x, f, platforms).velY == 0.0
    decreases |platforms|
  {
    if platforms != [] {
      LandRestsWhenGrounded(x, f, platforms[..|platforms| - 1]);
    }
  }

  /** The pass either keeps the vertical speed or stops the player. */
  lemma {:induction false} LandKeepsOrStops(x: int, f: Fall, platforms: seq<Platform>)
    ensures Land(x, f, platforms).velY == f.velY || Land(x, f, platforms).velY == 0.0
    decreases |platforms|
  {
    if platforms != [] {
      LandKeepsOrStops(x, f, platforms[..|platforms| - 1]);
    }
  }

  /**
   * A player that was not on the ground and ends the pass on the ground
   * stands exactly on top of one of the platforms.
   */
  lemma {:induction false} LandOnTopOfPlatform(x: int, f: Fall, platforms: seq<Platform>)
    requires !f.onGround
    ensures Land(x, f, platforms).onGround ==>
      exists k :: 0 <= k < |platforms| && Land(x, f, platforms).y == (platforms[k].y - PLAYER_HEIGHT) as real
    decreases |platforms|
  {
    if platforms != [] {
      var init := platforms[..|platforms| - 1];
      var before := Land(x, f, init);
      LandOnTopOfPlatform(x, f, init);
      LandRestsWhenGrounded(x, f, init);
      if before.onGround {
        var k :| 0 <= k < |init| && before.y == (init[k].y - PLAYER_HEIGHT) as real;
        assert platforms[k] == init[k];
      }
    }
  }

  /**
   * The platform loop of `Player.update`: every platform the player overlaps,
   * in list order, may snap the player's vertical position.
   */
  method LandPass(x: int, start: Fall, platforms: seq<Platform>) returns (f: Fall)
    requires start.onGround ==> start.velY == 0.0
    ensures f == Land(x, start, platforms)
    ensures f.onGround ==> f.velY == 0.0
  {
    f := start;
    var i := 0;
    while i < |platforms|
      invariant 0 <= i <= |platforms|
      invariant f == Land(x, start, platforms[..i])
    {
      var p := platforms[i];
      if Overlaps(PlayerRect(x, f.y), PlatformRect(p)) {
        if f.velY > 0.0 {
          f := Fall((p.y - PLAYER_HEIGHT) as real, 0.0, true);
        } else if f.velY < 0.0 {
          f := Fall((p.y + p.height) as real, 0.0, f.onGround);
        }
      }
      assert platforms[..i + 1][..i] == platforms[..i];
      i := i + 1;
    }
    assert platforms[..i] == platforms;
    LandRestsWhenGrounded(x, start, platforms);
  }

  // ------------------------------------------------------------ small parts

  /** The horizontal clamp of `update`: keep the whole player inside the world. */
  function ClampX(x: int): (r: int)
    ensures 0 <= r <= WORLD_WIDTH - PLAYER_WIDTH
    ensures 0 <= x <= WORLD_WIDTH - PLAYER_WIDTH ==> r == x
    ensures x < 0 ==> r == 0
    ensures x > WORLD_WIDTH - PLAYER_WIDTH ==> r == WORLD_WIDTH - PLAYER_WIDTH
  {
    if x < 0 then 0 else if x > WORLD_WIDTH - PLAYER_WIDTH then WORLD_WIDTH - PLAYER_WIDTH else x
  }

  /** `get_muzzle_position`: the centre of the gun's end in world coordinates. */
  function MuzzlePosition(x: int, y: real, facingRight: bool): (m: (int, real))
    ensures m.0 == if facingRight then x + 39 else x - 7
    ensures m.1 == y + 19.0
  {
    var mx := if facingRight then x + PLAYER_WIDTH - GUN_OFFSET_X + GUN_LENGTH
              else x - (GUN_LENGTH - GUN_OFFSET_X);
    (mx, y + (GUN_OFFSET_Y + GUN_HEIGHT / 2) as real)
  }

  /**
   * The bullet `shoot` spawns: at the muzzle facing right, one bullet width
   * behind it facing left, vertically centred on the muzzle.
   */
  function ShotFrom(x: int, y: real, facingRight: bool): (b: Bullet)
    ensures b.alive
    ensures b.x == if facingRight then x + 39 else x - 15
    ensures b.y == y + 18.0
    ensures b.speed == if facingRight then BULLET_SPEED else -BULLET_SPEED
    ensures b.direction == if facingRight then 1 else -1
  {
    var dir := if facingRight then 1 else -1;
    var (mx, my) := MuzzlePosition(x, y, facingRight);
    NewBullet(if dir == 1 then mx else mx - BULLET_WIDTH, my - (BULLET_HEIGHT / 2) as real, dir)
  }

  /** ASCII case folding, standing in for `str.lower`. */
  function LowerChar(c: char): char
  {
    if 'A' <= c <= 'Z' then (c as int + 32) as char else c
  }

  /** `code.lower() == CHEAT_CODE.lower()`. */
  predicate IsCheatCode(code: string)
  {
    |code| == |CHEAT_CODE| && forall i :: 0 <= i < |code| ==> LowerChar(code[i]) == LowerChar(CHEAT_CODE[i])
  }

  /** The code is matched without regard to case, and nothing else matches. */
  lemma CheatCodeSpellings()
    ensures IsCheatCode("idkfa") && IsCheatCode("IDKFA") && IsCheatCode("IdKfA")
    ensures !IsCheatCode("idkf") && !IsCheatCode("idkfa ") && !IsCheatCode("iddqd")
  {
    assert LowerChar("iddqd"[2]) != LowerChar(CHEAT_CODE[2]);
  }

  // ------------------------------------------------------------ the player

  class Player {
    var x: int
    var y: real
    var velX: int
    var velY: real
    var onGround: bool
    var facingRight: bool
    var score: int
    var lives: int
    var health: int
    var invincibleFrames: int
    var isInvincible: bool
    var infiniteInvincibility: bool
    var shootCooldown: int

    /**
     * Health stays in (0, MAX_HEALTH] (reaching 0 immediately costs a life and
     * refills it), the cooldowns stay in range, and an ordinary invincibility
     * window always has frames left to count down.
     */
    ghost predicate Valid()
      reads this
    {
      0 < health <= MAX_HEALTH
      && 0 <= shootCooldown <= BULLET_COOLDOWN_FRAMES
      && 0 <= invincibleFrames <= INVINCIBILITY_TIME
      && (isInvincible && !infiniteInvincibility ==> invincibleFrames > 0)
    }

    function Rect(): Rect
      reads this
    {
      PlayerRect(x, y)
    }

    constructor (x0: int, y0: real)
      ensures Valid()
      ensures x == x0 && y == y0 && velX == 0 && velY == 0.0
      ensures !onGround && facingRight && score == 0 && lives == 3 && health == MAX_HEALTH
      ensures invincibleFrames == 0 && !isInvincible && !infiniteInvincibility && shootCooldown == 0
    {
      x, y := x0, y0;
      velX, velY := 0, 0.0;
      onGround := false;
      facingRight := true;
      score := 0;
      lives := 3;
      health := MAX_HEALTH;
      invincibleFrames := 0;
      isInvincible := false;
      infiniteInvincibility := false;
      shootCooldown := 0;
    }

    /**
     * `Player.update`: gravity, movement, the invincibility and shooting
     * countdowns, the landing pass at the moved (not yet clamped) x, the
     * horizontal clamp, and the fall-off respawn that costs one life.
     */
    method Update(platforms: seq<Platform>)
      requires Valid()
      modifies this
      ensures Valid()
      ensures 0 <= x <= WORLD_WIDTH - PLAYER_WIDTH
      ensures onGround ==> velY == 0.0
      ensures shootCooldown == if old(shootCooldown) > 0 then old(shootCooldown) - 1 else 0
      ensures score == old(score) && facingRight == old(facingRight)
      ensures infiniteInvincibility == old(infiniteInvincibility)
      ensures var f := Land(old(x) + old(velX), Fall(old(y) + old(velY) + GRAVITY, old(velY) + GRAVITY, false), platforms);
        onGround == f.onGround &&
        if f.y > SCREEN_HEIGHT as real then
          lives == old(lives) - 1 && health == MAX_HEALTH && !isInvincible && invincibleFrames == 0
          && x == SPAWN_X && y == SPAWN_Y && velX == 0 && velY == 0.0
        else
          lives == old(lives) && health == old(health) && velX == old(velX)
          && x == ClampX(old(x) + old(velX)) && y == f.y && velY == f.velY
          && (if old(isInvincible) && !old(infiniteInvincibility) then
                invincibleFrames == old(invincibleFrames) - 1 && isInvincible == (invincibleFrames > 0)
              else
                invincibleFrames == old(invincibleFrames) && isInvincible == old(isInvincible))
    {
      var vy := velY + GRAVITY;
      var nx := x + velX;
      var ny := y + vy;
      TickTimers();
      var f := LandPass(nx, Fall(ny, vy, false), platforms);
      x, y, velY, onGround := ClampX(nx), f.y, f.velY, f.onGround;
      if y > SCREEN_HEIGHT as real {
        FallOffReset();
      }
    }

    /** The invincibility and shooting countdowns of `update`. */
    method TickTimers()
      requires Valid()
      modifies this`invincibleFrames, this`isInvincible, this`shootCooldown
      ensures Valid()
      ensures shootCooldown == if old(shootCooldown) > 0 then old(shootCooldown) - 1 else 0
      ensures if old(isInvincible) && !infiniteInvincibility then
                invincibleFrames == old(invincibleFrames) - 1 && isInvincible == (invincibleFrames > 0)
              else
                invincibleFrames == old(invincibleFrames) && isInvincible == old(isInvincible)
    {
      if isInvincible && !infiniteInvincibility {
        invincibleFrames := invincibleFrames - 1;
        if invincibleFrames <= 0 {
          isInvincible := false;
        }
      }
      if shootCooldown > 0 {
        shootCooldown := shootCooldown - 1;
      }
    }

    /** Falling below the screen costs one life and puts the player back at the spawn point. */
    method FallOffReset()
      requires Valid()
      modifies this`lives, this`health, this`isInvincible, this`invincibleFrames,
               this`x, this`y, this`velX, this`velY
      ensures Valid()
      ensures lives == old(lives) - 1 && health == MAX_HEALTH && !isInvincible && invincibleFrames == 0
      ensures x == SPAWN_X && y == SPAWN_Y && velX == 0 && velY == 0.0
    {
      lives := lives - 1;
      health := MAX_HEALTH;
      isInvincible := false;
      invincibleFrames := 0;
      x := SPAWN_X;
      y := SPAWN_Y;
      velX := 0;
      velY := 0.0;
    }

    /** `jump`: only from the ground. */
    method Jump()
      modifies this`velY
      ensures velY == if onGround then JUMP_POWER else old(velY)
    {
      if onGround {
        velY := JUMP_POWER;
      }
    }

    /** `shoot`: a bullet only when the cooldown has run out, which restarts it. */
    method Shoot() returns (bullet: Option<Bullet>)
      requires Valid()
      modifies this`shootCooldown
      ensures Valid()
      ensures old(shootCooldown) == 0 ==>
        bullet == Some(ShotFrom(x, y, facingRight)) && shootCooldown == BULLET_COOLDOWN_FRAMES
      ensures old(shootCooldown) != 0 ==> bullet == None && shootCooldown == old(shootCooldown)
    {
      if shootCooldown == 0 {
        var dir := if facingRight then 1 else -1;
        var (mx, my) := MuzzlePosition(x, y, facingRight);
        var bx := if dir == 1 then mx else mx - BULLET_WIDTH;
        var bY := my - (BULLET_HEIGHT / 2) as real;
        shootCooldown := BULLET_COOLDOWN_FRAMES;
        return Some(NewBullet(bx, bY, dir));
      }
      return None;
    }

    /**
     * `take_damage`: a no-op while invincible; otherwise health drops (not
     * below 0), an invincibility window starts, and reaching 0 costs exactly
     * one life and refills health. The window is set on the death path too.
     */
    method TakeDamage(damage: int) returns (died: bool)
      requires Valid()
      requires damage >= 0
      modifies this
      ensures Valid()
      ensures old(isInvincible) || old(infiniteInvincibility) ==> !died && unchanged(this)
      ensures !old(isInvincible) && !old(infiniteInvincibility) ==>
        died == (old(health) <= damage)
        && isInvincible && invincibleFrames == INVINCIBILITY_TIME && !infiniteInvincibility
        && (if died then lives == old(lives) - 1 && health == MAX_HEALTH
            else lives == old(lives) && health == old(health) - damage)
        && x == old(x) && y == old(y) && velX == old(velX) && velY == old(velY)
        && onGround == old(onGround) && score == old(score) && shootCooldown == old(shootCooldown)
        && facingRight == old(facingRight)
    {
      if isInvincible || infiniteInvincibility {
        return false;
      }
      health := if health - damage > 0 then health - damage else 0;
      if !infiniteInvincibility {
        isInvincible := true;
        invincibleFrames := INVINCIBILITY_TIME;
      }
      if health <= 0 {
        lives := lives - 1;
        health := MAX_HEALTH;
        return true;
      }
      return false;
    }

    /** `activate_cheat_code`: the right code turns on permanent invincibility. */
    method ActivateCheatCode(code: string) returns (ok: bool)
      requires Valid()
      modifies this`infiniteInvincibility, this`isInvincible
      ensures Valid()
      ensures ok == IsCheatCode(code)
      ensures ok ==> infiniteInvincibility && isInvincible
      ensures !ok ==> infiniteInvincibility == old(infiniteInvincibility) && isInvincible == old(isInvincible)
    {
      if IsCheatCode(code) {
        infiniteInvincibility := true;
        isInvincible := true;
        return true;
      }
      return false;
    }
  }

  /**
   * A player with 15 health and no invincibility that takes 20 damage loses
   * one life, is back at full health, and is still invincible afterwards.
   */
  method DeathKeepsInvincibility() returns (p: Player)
    ensures p.lives == 2 && p.health == MAX_HEALTH
    ensures p.isInvincible && p.invincibleFrames == INVINCIBILITY_TIME
  {
    p := new Player(SPAWN_X, SPAWN_Y);
    p.health := 15;
    var died := p.TakeDamage(ENEMY_DAMAGE);
    assert died;
  }
}
