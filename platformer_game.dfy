/**
 * The platformer's game object: the world lists, the camera and the world
 * frontier, the frame update and the keyboard handling.
 */
module PlatformerGame {
  import opened Options
  import opened Seqs
  import opened Geometry
  import opened PlatformerConfig
  import opened PlatformerPlatforms
  import opened PlatformerItems
  import opened PlatformerPlayer
  import opened PlatformerEnemy
  import opened PlatformerWorld
  import opened PlatformerPasses

  /** The keys the game reacts to; every other key is `OtherKey`. */
  datatype KeyCode = Space | KeyR | KeyEquals | KeyReturn | KeyEscape | KeyBackspace | KeyF | OtherKey

  /** A key press and the text it types. */
  datatype KeyEvent = KeyEvent(key: KeyCode, text: string)

  /** Printable text, restricted to ASCII: space to tilde. */
  predicate Printable(s: string)
  {
    forall i :: 0 <= i < |s| ==> ' ' <= s[i] <= '~'
  }

  /** What a key press does, in the order `handle_events` tests for it. */
  datatype Action = Jump | Restart | OpenCheat | Submit | Cancel | Erase | Type | Fire | Ignore

  /**
   * Space always jumps; R restarts only a lost or won game; '=' opens the
   * cheat input; while it is open, Return submits, Escape cancels,
   * Backspace erases and printable ASCII text is typed (R and F included); F
   * fires only while it is closed.
   */
  function Route(ev: KeyEvent, over: bool, typing: bool): (a: Action)
    ensures a == Fire ==> ev.key == KeyF && !typing
    ensures a == Type ==> typing && Printable(ev.text)
    ensures a == Restart ==> over
  {
    if ev.key == Space then Jump
    else if ev.key == KeyR && over then Restart
    else if ev.key == KeyEquals then OpenCheat
    else if typing then
      (if ev.key == KeyReturn then Submit
       else if ev.key == KeyEscape then Cancel
       else if ev.key == KeyBackspace then Erase
       else if Printable(ev.text) then Type
       else Ignore)
    else if ev.key == KeyF then Fire
    else Ignore
  }

  /** The actions that only touch the cheat input. */
  predicate Editing(a: Action)
  {
    a == OpenCheat || a == Submit || a == Cancel || a == Erase || a == Type
  }

  /**
   * The cheat input (open or not, and its text) after an editing action:
   * '=' opens an empty input unless it is already open, Return and Escape
   * close and empty it, Backspace drops the last character, typing appends.
   */
  function CheatInput(a: Action, active: bool, text: string, typed: string): (r: (bool, string))
    requires Editing(a)
    ensures a == OpenCheat ==> r.0 && (active ==> r.1 == text) && (!active ==> r.1 == "")
    ensures a == Submit || a == Cancel ==> r == (false, "")
    ensures a == Erase ==> r.0 == active && |r.1| == if text == "" then 0 else |text| - 1
    ensures a == Type ==> r.0 == active && |r.1| == |text| + |typed| && r.1[..|text|] == text && r.1[|text|..] == typed
  {
    match a
    case OpenCheat => if active then (true, text) else (true, "")
    case Erase => (active, DropLast(text))
    case Type => (active, text + typed)
    case _ => (false, "")
  }

  /** Typing one character and erasing it gives back the text that was there. */
  lemma TypeThenErase(active: bool, text: string, c: char)
    ensures var typed := CheatInput(Type, active, text, [c]);
      CheatInput(Erase, typed.0, typed.1, "") == (active, text)
  {
    assert (text + [c])[..|text|] == text;
  }

  /** Every field of a player, for stating which ones a key press changes. */
  datatype PlayerState = PlayerState(x: int, y: real, velX: int, velY: real, onGround: bool, facingRight: bool,
                                     score: int, lives: int, health: int, invincibleFrames: int,
                                     isInvincible: bool, infiniteInvincibility: bool, shootCooldown: int)

  function StateOf(p: Player): PlayerState
    reads p
  {
    PlayerState(p.x, p.y, p.velX, p.velY, p.onGround, p.facingRight, p.score, p.lives, p.health,
                p.invincibleFrames, p.isInvincible, p.infiniteInvincibility, p.shootCooldown)
  }

  /** The player `Player.__init__` creates at the spawn point: at rest, facing right, 3 lives, full health. */
  const START_PLAYER: PlayerState :=
    PlayerState(SPAWN_X, SPAWN_Y, 0, 0.0, false, true, 0, 3, MAX_HEALTH, 0, false, false, 0)

  /** The three hearts `generate_hearts` places. */
  const START_HEARTS: seq<Heart> := [NewHeart(HEART_XS[0], HEART_Y), NewHeart(HEART_XS[1], HEART_Y), NewHeart(HEART_XS[2], HEART_Y)]

  /**
   * The world of a new game: the first two chunks laid left to right from
   * the initial ground chunk, each floating platform clear of the earlier
   * ones or at the fallback height, enemies standing on and coins floating
   * over the platforms.
   */
  ghost predicate StartWorld(platforms: seq<Platform>, enemies: seq<Enemy>, coins: seq<Coin>)
    reads enemies
  {
    |platforms| > 0 && platforms[0] == Platform(0, GROUND_Y, CHUNK_WIDTH, GROUND_HEIGHT, Grass)
    && (forall i :: 0 <= i < |platforms| ==> Generated(platforms[i], 0, 2 * CHUNK_WIDTH))
    && (forall i :: 0 <= i < |platforms| - 1 ==> platforms[i].x + platforms[i].width <= platforms[i + 1].x)
    && AllCleared(platforms, 0) && AllStand(enemies, 0, platforms, 0) && AllOver(coins, 0, platforms, 0)
  }

  /** The arrow keys held: right wins over left, and no key stops the player. */
  function Steer(s: PlayerState, left: bool, right: bool): PlayerState
  {
    s.(velX := if right then PLAYER_SPEED else if left then -PLAYER_SPEED else 0,
       facingRight := if right then true else if left then false else s.facingRight)
  }

  /**
   * The player after `Player.update` over `platforms`: it falls by gravity,
   * moves by its speed, lands on the first platform it overlaps from above,
   * is clamped to the world, and counts its timers down; below the screen it
   * loses a life and starts again at the spawn point with full health.
   */
  function PlayerStep(s: PlayerState, platforms: seq<Platform>): PlayerState
  {
    var f := Land(s.x + s.velX, Fall(s.y + s.velY + GRAVITY, s.velY + GRAVITY, false), platforms);
    var ticking := s.isInvincible && !s.infiniteInvincibility;
    var cooldown := if s.shootCooldown > 0 then s.shootCooldown - 1 else 0;
    if f.y > SCREEN_HEIGHT as real then
      s.(x := SPAWN_X, y := SPAWN_Y, velX := 0, velY := 0.0, onGround := f.onGround,
         lives := s.lives - 1, health := MAX_HEALTH, invincibleFrames := 0, isInvincible := false,
         shootCooldown := cooldown)
    else
      s.(x := ClampX(s.x + s.velX), y := f.y, velY := f.velY, onGround := f.onGround,
         invincibleFrames := if ticking then s.invincibleFrames - 1 else s.invincibleFrames,
         isInvincible := if ticking then s.invincibleFrames - 1 > 0 else s.isInvincible,
         shootCooldown := cooldown)
  }

  /** The game's fields apart from the cheat input. */
  datatype Scene = Scene(player: Player, platforms: seq<Platform>, enemies: seq<Enemy>, coins: seq<Coin>,
                         hearts: seq<Heart>, bullets: seq<Bullet>, explosions: seq<Explosion>,
                         enemyBullets: seq<EnemyBullet>, cameraX: int, lastGeneratedX: int,
                         gameOver: bool, win: bool)

  /** The text with its last character removed, if any. */
  function DropLast(s: string): (r: string)
    ensures s == [] ==> r == []
    ensures s != [] ==> r + [s[|s| - 1]] == s
  {
    if s == [] then [] else s[..|s| - 1]
  }

  /** A ground segment or a floating platform away from the start of the world. */
  ghost predicate LaterShape(p: Platform)
  {
    PLATFORM_MIN_WIDTH <= p.width <= PLATFORM_MAX_WIDTH
    && ((p.y == GROUND_Y && p.height == GROUND_HEIGHT && p.kind == Grass)
        || (FLOAT_MIN_Y <= p.y <= FLOAT_MAX_Y && p.height == FLOATING_HEIGHT && p.kind == KindAt(p.x)))
  }

  /** Shape of a platform the generator places at `p.x`; at 0 it is the initial ground chunk. */
  ghost predicate Generated(p: Platform, startX: int, endX: int)
  {
    startX <= p.x < endX
    && (if p.x == 0 then p == Platform(0, GROUND_Y, CHUNK_WIDTH, GROUND_HEIGHT, Grass) else LaterShape(p))
  }

  /** A generated enemy: on top of a floating platform, starting well inside it. */
  ghost predicate StandsOn(e: Enemy, p: Platform)
    reads e
  {
    p.height == FLOATING_HEIGHT
    && e.y + e.height == p.y
    && p.x + 20 <= e.startX <= p.x + p.width - 50
    && 30 <= e.patrolDistance <= (if p.width - 60 > 31 then p.width - 60 else 31)
  }

  /** A generated coin: 30 pixels above a floating platform, at least 20 pixels from its ends. */
  ghost predicate CoinOver(c: Coin, p: Platform)
  {
    p.height == FLOATING_HEIGHT && !c.collected && c.y == p.y - 30 && p.x + 20 <= c.x <= p.x + p.width - 20
  }

  /** The enemy stands on one of the platforms from index `from` on. */
  ghost predicate StandsOnOneOf(e: Enemy, ps: seq<Platform>, from: nat)
    reads e
  {
    exists k :: from <= k < |ps| && StandsOn(e, ps[k])
  }

  /** The coin floats over one of the platforms from index `from` on. */
  ghost predicate OverOneOf(c: Coin, ps: seq<Platform>, from: nat)
  {
    exists k :: from <= k < |ps| && CoinOver(c, ps[k])
  }

  /**
   * The platforms from index `from` on were laid by the generator between
   * `startX` and the cursor `x`, from left to right and without overlapping.
   */
  ghost predicate Laid(ps: seq<Platform>, from: nat, startX: int, endX: int, x: int)
  {
    from <= |ps| && startX <= x
    && (x == startX <==> |ps| == from)
    && (startX == 0 < x ==> ps[from] == Platform(0, GROUND_Y, CHUNK_WIDTH, GROUND_HEIGHT, Grass))
    && (forall i :: from <= i < |ps| ==> Generated(ps[i], startX, endX))
    && (forall i :: from <= i < |ps| - 1 ==> ps[i].x + ps[i].width <= ps[i + 1].x)
    && (|ps| > from ==> ps[|ps| - 1].x + ps[|ps| - 1].width <= x)
  }

  /** Every enemy from index `from` on stands on one of the platforms from index `pfrom` on. */
  ghost predicate AllStand(es: seq<Enemy>, from: nat, ps: seq<Platform>, pfrom: nat)
    reads es
  {
    forall i :: from <= i < |es| ==> StandsOnOneOf(es[i], ps, pfrom)
  }

  /** Every coin from index `from` on floats over one of the platforms from index `pfrom` on. */
  ghost predicate AllOver(cs: seq<Coin>, from: nat, ps: seq<Platform>, pfrom: nat)
  {
    forall i :: from <= i < |cs| ==> OverOneOf(cs[i], ps, pfrom)
  }

  /**
   * A floating platform placed after the platforms `earlier` either clears
   * all of them (at most a tenth of its width overlapping, tops at least 80
   * pixels apart) or sits at the fallback height.
   */
  ghost predicate Cleared(p: Platform, earlier: seq<Platform>)
  {
    p.height == FLOATING_HEIGHT ==> PlacementOk(p.x, p.width, p.y, earlier) || p.y == FALLBACK_Y
  }

  /** Every platform from index `from` on is cleared against all the platforms before it. */
  ghost predicate AllCleared(ps: seq<Platform>, from: nat)
  {
    forall i :: from <= i < |ps| ==> Cleared(ps[i], ps[..i])
  }

  /** Appending a platform cleared against the list keeps the list cleared. */
  lemma ClearedStep(ps: seq<Platform>, from: nat, p: Platform)
    requires AllCleared(ps, from) && Cleared(p, ps)
    ensures AllCleared(ps + [p], from)
  {
    var ps' := ps + [p];
    forall i | from <= i < |ps'|
      ensures Cleared(ps'[i], ps'[..i])
    {
      if i < |ps| {
        assert ps'[..i] == ps[..i] && ps'[i] == ps[i];
      } else {
        assert ps'[..i] == ps;
      }
    }
  }

  /** Enemies placed on a new platform `p` keep every enemy standing on a platform. */
  lemma StandStep(es: seq<Enemy>, from: nat, e0: nat, ps: seq<Platform>, pfrom: nat, p: Platform)
    requires from <= e0 <= |es| && pfrom <= |ps| && AllStand(es[..e0], from, ps, pfrom)
    requires forall i :: e0 <= i < |es| ==> StandsOn(es[i], p)
    ensures AllStand(es, from, ps + [p], pfrom)
  {
    var ps' := ps + [p];
    forall i | from <= i < |es|
      ensures StandsOnOneOf(es[i], ps', pfrom)
    {
      if i < e0 {
        assert es[..e0][i] == es[i];
        var k :| pfrom <= k < |ps| && StandsOn(es[i], ps[k]);
        assert ps'[k] == ps[k];
      } else {
        assert StandsOn(es[i], ps'[|ps|]);
      }
    }
  }

  /** Coins placed over a new platform `p` keep every coin over a platform. */
  lemma OverStep(cs: seq<Coin>, from: nat, c0: nat, ps: seq<Platform>, pfrom: nat, p: Platform)
    requires from <= c0 <= |cs| && pfrom <= |ps| && AllOver(cs[..c0], from, ps, pfrom)
    requires forall i :: c0 <= i < |cs| ==> CoinOver(cs[i], p)
    ensures AllOver(cs, from, ps + [p], pfrom)
  {
    var ps' := ps + [p];
    forall i | from <= i < |cs|
      ensures OverOneOf(cs[i], ps', pfrom)
    {
      if i < c0 {
        assert cs[..c0][i] == cs[i];
        var k :| pfrom <= k < |ps| && CoinOver(cs[i], ps[k]);
        assert ps'[k] == ps[k];
      } else {
        assert CoinOver(cs[i], ps'[|ps|]);
      }
    }
  }

  /** Placing one more platform at the cursor keeps the platforms laid. */
  lemma LaidStep(ps: seq<Platform>, from: nat, startX: int, endX: int, x: int, p: Platform, next: int)
    requires Laid(ps, from, startX, endX, x) && x < endX
    requires p.x == x && p.x + p.width <= next && p.width > 0
    requires if x == 0 then p == Platform(0, GROUND_Y, CHUNK_WIDTH, GROUND_HEIGHT, Grass) else LaterShape(p)
    ensures Laid(ps + [p], from, startX, endX, next)
  {
    var ps' := ps + [p];
    assert forall i :: from <= i < |ps| ==> ps'[i] == ps[i];
  }

  /** What a hit can change: the player's lives, health, invincibility, position, and the camera. */
  datatype Vitals = Vitals(lives: int, health: int, invincible: bool, frames: int,
                           x: int, y: real, velX: int, velY: real, camera: int)

  function VitalsOf(p: Player, camera: int): Vitals
    reads p
  {
    Vitals(p.lives, p.health, p.isInvincible, p.invincibleFrames, p.x, p.y, p.velX, p.velY, camera)
  }

  /**
   * A player that was not invincible took `damage` and is now invincible; if
   * that emptied its health it lost one life and got full health back, and
   * with `respawn` it was also put back at the spawn point with the camera
   * at 0.
   */
  ghost predicate Hurt(v0: Vitals, infinite: bool, damage: int, respawn: bool, v: Vitals)
  {
    !v0.invincible && !infinite
    && if v0.health <= damage then
         var moved := if respawn then v0.(x := SPAWN_X, y := SPAWN_Y, velX := 0, velY := 0.0, camera := 0) else v0;
         v == moved.(lives := v0.lives - 1, health := MAX_HEALTH, invincible := true, frames := INVINCIBILITY_TIME)
       else
         v == v0.(health := v0.health - damage, invincible := true, frames := INVINCIBILITY_TIME)
  }

  /** Nothing happened to the player, or it was hurt once. */
  ghost predicate HurtAtMostOnce(v0: Vitals, infinite: bool, damage: int, respawn: bool, v: Vitals)
  {
    v == v0 || Hurt(v0, infinite, damage, respawn, v)
  }

  /**
   * A hurt player is invincible, so a second hit in the same pass does
   * nothing: any number of hits in a row hurt at most once.
   */
  lemma HurtOnceThenSpared(v0: Vitals, v1: Vitals, v2: Vitals, infinite: bool, damage: int, respawn: bool)
    requires HurtAtMostOnce(v0, infinite, damage, respawn, v1) && HurtAtMostOnce(v1, infinite, damage, respawn, v2)
    ensures HurtAtMostOnce(v0, infinite, damage, respawn, v2)
    ensures v2 != v0 ==> v2.invincible
  {
  }

  /** The enemy bullets after the hit check: those overlapping the player are dead. */
  function ShotDown(bs: seq<EnemyBullet>, player: Rect): (r: seq<EnemyBullet>)
    ensures |r| == |bs|
  {
    seq(|bs|, j requires 0 <= j < |bs| => if Overlaps(player, EnemyBulletRect(bs[j])) then bs[j].(alive := false) else bs[j])
  }

  /** Some enemy bullet overlaps the player. */
  predicate AnyShotHits(bs: seq<EnemyBullet>, player: Rect)
  {
    exists j :: 0 <= j < |bs| && Overlaps(player, EnemyBulletRect(bs[j]))
  }

  /**
   * The loop of the enemy-bullet hit check: every bullet overlapping the
   * player dies and deals ENEMY_BULLET_DAMAGE, which only the first such
   * bullet can do; nobody is moved, even on a death.
   */
  method TakeShots(p: Player, bs: seq<EnemyBullet>) returns (out: seq<EnemyBullet>)
    requires p.Valid()
    modifies p
    ensures p.Valid() && out == ShotDown(bs, old(p.Rect()))
    ensures p.score == old(p.score) && p.shootCooldown == old(p.shootCooldown)
    ensures p.infiniteInvincibility == old(p.infiniteInvincibility)
    ensures if AnyShotHits(bs, old(p.Rect())) && !old(p.isInvincible) && !old(p.infiniteInvincibility) then
              Hurt(old(VitalsOf(p, 0)), p.infiniteInvincibility, ENEMY_BULLET_DAMAGE, false, VitalsOf(p, 0))
            else
              VitalsOf(p, 0) == old(VitalsOf(p, 0))
  {
    var r := p.Rect();
    out := bs;
    var j := 0;
    while j < |bs|
      invariant 0 <= j <= |bs| == |out|
      invariant p.Valid() && p.Rect() == r
      invariant forall k :: 0 <= k < j ==> out[k] == ShotDown(bs, r)[k]
      invariant forall k :: j <= k < |bs| ==> out[k] == bs[k]
      invariant p.score == old(p.score) && p.shootCooldown == old(p.shootCooldown)
      invariant p.infiniteInvincibility == old(p.infiniteInvincibility)
      invariant if AnyShotHits(bs[..j], r) && !old(p.isInvincible) && !old(p.infiniteInvincibility) then
                  Hurt(old(VitalsOf(p, 0)), p.infiniteInvincibility, ENEMY_BULLET_DAMAGE, false, VitalsOf(p, 0))
                else
                  VitalsOf(p, 0) == old(VitalsOf(p, 0))
    {
      assert bs[..j + 1][..j] == bs[..j] && bs[..j + 1][j] == bs[j];
      if Overlaps(r, EnemyBulletRect(bs[j])) {
        out := out[j := out[j].(alive := false)];
        var _ := p.TakeDamage(ENEMY_BULLET_DAMAGE);
      }
      j := j + 1;
    }
    assert bs[..j] == bs;
  }

  /** The inner bullet loop of the hit pass: the first bullet overlapping the box. */
  method FindHit(box: Body, shots: seq<Bullet>) returns (k: Option<nat>)
    ensures k == FirstHit(box, shots)
  {
    var j := 0;
    while j < |shots|
      invariant 0 <= j <= |shots|
      invariant forall m :: 0 <= m < j ==> !Overlaps(BulletRect(shots[m]), BodyRect(box))
    {
      if Overlaps(BulletRect(shots[j]), BodyRect(box)) {
        return Some(j);
      }
      j := j + 1;
    }
    return None;
  }

  /** Distinct enemies, each valid and on its patrol. */
  ghost predicate Patrolling(es: seq<Enemy>)
    reads es
  {
    Distinct(es) && forall i :: 0 <= i < |es| ==> es[i].Valid() && es[i].Patrolling()
  }

  /** The enemies that survive the hit pass are still distinct, valid and on patrol. */
  lemma SurvivorsKeepPatrolling(es: seq<Enemy>, shots: seq<Bullet>)
    requires Patrolling(es)
    ensures Patrolling(Survivors(es, shots))
    ensures forall i :: 0 <= i < |Survivors(es, shots)| ==> Survivors(es, shots)[i] in es
  {
    SurvivorsSplit(es, shots);
    var s := Survivors(es, shots);
    forall i | 0 <= i < |s|
      ensures s[i].Valid() && s[i].Patrolling()
    {
      assert s[i] in es;
    }
  }

  /**
   * An enemy in the shooting pass: where it was (its box as in `g`) and
   * facing `d0`; once its turn is `done`, its cooldown restarted if it was
   * ready to fire, and as before otherwise.
   */
  ghost predicate Reloaded(e: Enemy, g: Gun, d0: int, done: bool)
    reads e
  {
    e.Box() == g.box && e.direction == d0
    && e.shootCooldown == if done && Ready(g.kind, g.cooldown) then ENEMY_SHOOT_COOLDOWN_FRAMES else g.cooldown
  }

  class Game {
    var player: Player
    var platforms: seq<Platform>
    var enemies: seq<Enemy>
    var coins: seq<Coin>
    var hearts: seq<Heart>
    var bullets: seq<Bullet>
    var explosions: seq<Explosion>
    var enemyBullets: seq<EnemyBullet>
    var cameraX: int
    var lastGeneratedX: int
    var gameOver: bool
    var win: bool
    var cheatInputActive: bool
    var cheatInputText: string

    /**
     * The player and every enemy keep their own invariants, enemies are
     * distinct objects, the camera stays within the world, and every heart
     * heals by the same amount.
     */
    ghost predicate Valid()
      reads this, player, enemies
    {
      player.Valid()
      && 0 <= cameraX <= CAMERA_MAX
      && Patrolling(enemies)
      && (forall i :: 0 <= i < |hearts| ==> hearts[i].healAmount == HEART_HEAL)
    }

    /**
     * The state `__init__` leaves: a new player at the spawn point, the
     * first two chunks of world laid left to right, each floating platform
     * clear of the earlier ones or at the fallback height, enemies standing
     * on and coins floating over the platforms, the three hearts, no shots
     * or explosions, the camera and the frontier at 0, no latches and no
     * cheat input.
     */
    ghost predicate Started()
      reads this, player, enemies
    {
      StateOf(player) == START_PLAYER && StartWorld(platforms, enemies, coins) && hearts == START_HEARTS
      && bullets == [] && explosions == [] && enemyBullets == []
      && lastGeneratedX == 0 && cameraX == 0 && !gameOver && !win
      && !cheatInputActive && cheatInputText == ""
    }

    /** `Game.__init__`. */
    constructor ()
      ensures Valid() && Started()
      ensures fresh(player) && forall i :: 0 <= i < |enemies| ==> fresh(enemies[i])
    {
      player := new Player(SPAWN_X, SPAWN_Y);
      platforms, enemies, coins, hearts, bullets, explosions, enemyBullets,
        cameraX, lastGeneratedX, gameOver, win, cheatInputActive, cheatInputText
        := [], [], [], [], [], [], [], 0, 0, false, false, false, "";
      new;
      Reset();
    }

    /**
     * A fresh game: a new player, empty lists, the first two chunks of world,
     * the hearts, and the world frontier left at 0, so the first frames
     * generate the chunks from 0 once more.
     */
    method Reset()
      modifies this
      ensures Valid() && Started()
      ensures fresh(player) && forall i :: 0 <= i < |enemies| ==> fresh(enemies[i])
    {
      player := new Player(SPAWN_X, SPAWN_Y);
      ClearFlags();
      ClearLists();
      BuildWorld();
    }

    /** Empty world lists. */
    method ClearLists()
      requires player.Valid() && 0 <= cameraX <= CAMERA_MAX
      modifies this`platforms, this`enemies, this`coins, this`hearts, this`bullets, this`explosions, this`enemyBullets
      ensures Valid()
      ensures platforms == [] && enemies == [] && coins == [] && hearts == []
      ensures bullets == [] && explosions == [] && enemyBullets == []
    {
      platforms, enemies, coins, hearts, bullets, explosions, enemyBullets := [], [], [], [], [], [], [];
    }

    /** Camera and frontier at 0, no game over, no win, no cheat input. */
    method ClearFlags()
      requires player.Valid()
      modifies this`cameraX, this`lastGeneratedX, this`gameOver, this`win, this`cheatInputActive, this`cheatInputText
      ensures player.Valid() && cameraX == 0 && lastGeneratedX == 0 && !gameOver && !win
      ensures !cheatInputActive && cheatInputText == ""
    {
      cameraX, lastGeneratedX, gameOver, win, cheatInputActive, cheatInputText := 0, 0, false, false, false, "";
    }

    /**
     * The first two chunks of world and the hearts, on an empty world with a
     * new player and everything else cleared: the game is then started.
     */
    method BuildWorld()
      requires Valid() && platforms == [] && enemies == [] && coins == [] && hearts == []
      requires StateOf(player) == START_PLAYER && bullets == [] && explosions == [] && enemyBullets == []
      requires lastGeneratedX == 0 && cameraX == 0 && !gameOver && !win && !cheatInputActive && cheatInputText == ""
      modifies this`platforms, this`enemies, this`coins, this`hearts
      ensures Valid() && Started()
      ensures forall i :: 0 <= i < |enemies| ==> fresh(enemies[i])
    {
      GenerateWorldSegment(0, 2 * CHUNK_WIDTH);
      GenerateHearts();
    }

    /** `generate_hearts`: one heart at each of the three fixed positions. */
    method GenerateHearts()
      requires Valid()
      modifies this`hearts
      ensures Valid()
      ensures hearts == old(hearts) + [NewHeart(HEART_XS[0], HEART_Y), NewHeart(HEART_XS[1], HEART_Y), NewHeart(HEART_XS[2], HEART_Y)]
    {
      var i := 0;
      while i < |HEART_XS|
        invariant 0 <= i <= |HEART_XS|
        invariant Valid()
        invariant hearts == old(hearts) + seq(i, k requires 0 <= k < i => NewHeart(HEART_XS[k], HEART_Y))
      {
        hearts := hearts + [NewHeart(HEART_XS[i], HEART_Y)];
        i := i + 1;
      }
    }

    /**
     * `generate_world_segment`: from `startX` until the cursor reaches
     * `endX`, place a ground segment or a floating platform (with possibly an
     * enemy and one to three coins on it), then a gap; the cursor at 0 places
     * the initial ground chunk with no gap. New platforms follow each other
     * from left to right without overlapping, every new enemy stands on a new
     * floating platform, and every new coin floats over one.
     */
    method GenerateWorldSegment(startX: int, endX: int)
      requires Valid()
      modifies this`platforms, this`enemies, this`coins
      ensures Valid()
      ensures old(platforms) <= platforms && old(enemies) <= enemies && old(coins) <= coins
      ensures startX < endX ==> |platforms| > |old(platforms)|
      ensures startX == 0 < endX ==> platforms[|old(platforms)|] == Platform(0, GROUND_Y, CHUNK_WIDTH, GROUND_HEIGHT, Grass)
      ensures forall i :: |old(platforms)| <= i < |platforms| ==> Generated(platforms[i], startX, endX)
      ensures forall i :: |old(platforms)| <= i < |platforms| - 1 ==> platforms[i].x + platforms[i].width <= platforms[i + 1].x
      ensures forall i :: |old(enemies)| <= i < |enemies| ==> fresh(enemies[i])
      ensures forall i :: |old(enemies)| <= i < |enemies| ==> StandsOnOneOf(enemies[i], platforms, |old(platforms)|)
      ensures forall i :: |old(coins)| <= i < |coins| ==> OverOneOf(coins[i], platforms, |old(platforms)|)
      ensures AllCleared(platforms, |old(platforms)|)
    {
      var x := startX;
      while x < endX
        invariant Valid()
        invariant old(platforms) <= platforms && old(enemies) <= enemies && old(coins) <= coins
        invariant Laid(platforms, |old(platforms)|, startX, endX, x)
        invariant forall i :: |old(enemies)| <= i < |enemies| ==> fresh(enemies[i])
        invariant AllStand(enemies, |old(enemies)|, platforms, |old(platforms)|)
        invariant AllOver(coins, |old(coins)|, platforms, |old(platforms)|)
        invariant AllCleared(platforms, |old(platforms)|)
        decreases endX - x
      {
        x := LayNext(startX, endX, x, |old(platforms)|, |old(enemies)|, |old(coins)|);
      }
    }

    /**
     * One turn of the generator's loop, stated on the loop's invariants: the
     * platforms from `pfrom` on stay laid left to right and cleared, and the
     * enemies from `efrom` on and the coins from `cfrom` on stay on them.
     */
    method LayNext(startX: int, endX: int, x: int, ghost pfrom: nat, ghost efrom: nat, ghost cfrom: nat) returns (next: int)
      requires Valid() && x < endX && efrom <= |enemies| && cfrom <= |coins|
      requires Laid(platforms, pfrom, startX, endX, x) && AllCleared(platforms, pfrom)
      requires AllStand(enemies, efrom, platforms, pfrom) && AllOver(coins, cfrom, platforms, pfrom)
      modifies this`platforms, this`enemies, this`coins
      ensures Valid() && x < next
      ensures old(platforms) <= platforms && old(enemies) <= enemies && old(coins) <= coins
      ensures Laid(platforms, pfrom, startX, endX, next) && AllCleared(platforms, pfrom)
      ensures AllStand(enemies, efrom, platforms, pfrom) && AllOver(coins, cfrom, platforms, pfrom)
      ensures forall i :: |old(enemies)| <= i < |enemies| ==> fresh(enemies[i])
    {
      ghost var before, es0, cs0 := platforms, enemies, coins;
      next := PlaceSegment(x);
      LaidStep(before, pfrom, startX, endX, x, platforms[|before|], next);
      assert platforms == before + [platforms[|before|]];
      StandStep(enemies, efrom, |es0|, before, pfrom, platforms[|before|]);
      OverStep(coins, cfrom, |cs0|, before, pfrom, platforms[|before|]);
      ClearedStep(before, pfrom, platforms[|before|]);
    }

    /**
     * One step of the generator's loop at cursor `x`: append one platform
     * there, with whatever stands on it, and return the next cursor.
     */
    method PlaceSegment(x: int) returns (next: int)
      requires Valid()
      modifies this`platforms, this`enemies, this`coins
      ensures Valid()
      ensures |platforms| == |old(platforms)| + 1 && old(platforms) <= platforms
      ensures var p := platforms[|old(platforms)|];
        p.x == x && p.x + p.width <= next
        && (if x == 0 then p == Platform(0, GROUND_Y, CHUNK_WIDTH, GROUND_HEIGHT, Grass) && next == CHUNK_WIDTH
            else LaterShape(p) && p.x + p.width + 50 <= next <= p.x + p.width + 150)
        && (forall i :: |old(enemies)| <= i < |enemies| ==> fresh(enemies[i]) && StandsOn(enemies[i], p))
        && (forall i :: |old(coins)| <= i < |coins| ==> CoinOver(coins[i], p))
        && Cleared(p, old(platforms))
      ensures old(enemies) <= enemies && old(coins) <= coins
    {
      if x == 0 {
        platforms := platforms + [Platform(x, GROUND_Y, CHUNK_WIDTH, GROUND_HEIGHT, Grass)];
        return CHUNK_WIDTH;
      }
      var groundSegment: bool :| true;
      var w :| PLATFORM_MIN_WIDTH <= w <= PLATFORM_MAX_WIDTH;
      if groundSegment {
        platforms := platforms + [Platform(x, GROUND_Y, w, GROUND_HEIGHT, Grass)];
      } else {
        var y, found, _ := FindFloatingY(x, w, platforms);
        var p := Platform(x, y, w, FLOATING_HEIGHT, KindAt(x));
        platforms := platforms + [p];
        PlaceEnemy(p);
        PlaceCoins(p);
      }
      var gap :| 50 <= gap <= 150;
      next := x + w + gap;
    }

    /** Possibly one enemy on a new floating platform, which is the last platform. */
    method PlaceEnemy(p: Platform)
      requires Valid()
      requires |platforms| > 0 && platforms[|platforms| - 1] == p
      requires p.height == FLOATING_HEIGHT && PLATFORM_MIN_WIDTH <= p.width <= PLATFORM_MAX_WIDTH
      modifies this`enemies
      ensures Valid()
      ensures old(enemies) <= enemies && |enemies| <= |old(enemies)| + 1
      ensures forall i :: |old(enemies)| <= i < |enemies| ==> fresh(enemies[i]) && StandsOn(enemies[i], p)
    {
      var withEnemy: bool :| true;
      if withEnemy {
        var draw :| 0 <= draw < 4;
        var kind := [Basic, Flying, Fast, Shooter][draw];
        var ex :| p.x + 20 <= ex <= p.x + p.width - 50;
        var ey := p.y - (if kind == Shooter then SHOOTER_ENEMY_HEIGHT else ENEMY_HEIGHT);
        var maxPatrol := if 30 + 1 > p.width - 60 then 30 + 1 else p.width - 60;
        var patrol :| 30 <= patrol <= maxPatrol;
        var e := new Enemy(ex, ey, patrol, kind);
        enemies := enemies + [e];
      }
    }

    /** One to three coins over a new floating platform. */
    method PlaceCoins(p: Platform)
      requires p.height == FLOATING_HEIGHT && PLATFORM_MIN_WIDTH <= p.width
      modifies this`coins
      ensures old(coins) <= coins && |old(coins)| + 1 <= |coins| <= |old(coins)| + 3
      ensures forall i :: |old(coins)| <= i < |coins| ==> CoinOver(coins[i], p)
    {
      var count :| 1 <= count <= 3;
      var i := 0;
      while i < count
        invariant 0 <= i <= count
        invariant old(coins) <= coins && |coins| == |old(coins)| + i
        invariant forall k :: |old(coins)| <= k < |coins| ==> CoinOver(coins[k], p)
      {
        var cx :| p.x + 20 <= cx <= p.x + p.width - 20;
        coins := coins + [Coin(cx, p.y - 30, false)];
        i := i + 1;
      }
    }

    ghost function SceneOf(): Scene
      reads this
    {
      Scene(player, platforms, enemies, coins, hearts, bullets, explosions, enemyBullets, cameraX, lastGeneratedX, gameOver, win)
    }

    /**
     * One key press of `handle_events`, as `Route` classifies it: a jump
     * changes only the player's vertical speed; a restart is a fresh game;
     * the cheat-input keys change only the cheat input as `CheatInput` says,
     * and a submitted code that is right makes the player invincible for
     * good; F fires a bullet when the player's cooldown has run out. Nothing
     * else changes.
     */
    method HandleKey(ev: KeyEvent)
      requires Valid()
      modifies this, player
      ensures Valid()
      ensures Route(ev, old(gameOver || win), old(cheatInputActive)) == Jump ==>
        player == old(player) && unchanged(this)
        && StateOf(player) == old(StateOf(player)).(velY := if old(player.onGround) then JUMP_POWER else old(player.velY))
      ensures Route(ev, old(gameOver || win), old(cheatInputActive)) == Restart ==>
        fresh(player) && Started() && forall i :: 0 <= i < |enemies| ==> fresh(enemies[i])
      ensures Editing(Route(ev, old(gameOver || win), old(cheatInputActive))) ==>
        player == old(player) && SceneOf() == old(SceneOf())
        && (cheatInputActive, cheatInputText) == CheatInput(Route(ev, old(gameOver || win), old(cheatInputActive)), old(cheatInputActive), old(cheatInputText), ev.text)
        && StateOf(player) == if Route(ev, old(gameOver || win), old(cheatInputActive)) == Submit && IsCheatCode(old(cheatInputText))
                              then old(StateOf(player)).(infiniteInvincibility := true, isInvincible := true)
                              else old(StateOf(player))
      ensures Route(ev, old(gameOver || win), old(cheatInputActive)) == Fire ==>
        player == old(player) && SceneOf() == old(SceneOf()).(bullets := bullets) && !cheatInputActive && cheatInputText == old(cheatInputText)
        && if old(player.shootCooldown) == 0 then
             bullets == old(bullets) + [ShotFrom(player.x, player.y, player.facingRight)]
             && StateOf(player) == old(StateOf(player)).(shootCooldown := BULLET_COOLDOWN_FRAMES)
           else
             bullets == old(bullets) && unchanged(player)
      ensures Route(ev, old(gameOver || win), old(cheatInputActive)) == Ignore ==> unchanged(this) && unchanged(player)
    {
      if Route(ev, gameOver || win, cheatInputActive) == Restart {
        Reset();
      } else {
        PlayKey(ev, gameOver || win);
      }
    }

    /** A key press that does not restart the game, with `over` telling whether it is lost or won. */
    method PlayKey(ev: KeyEvent, over: bool)
      requires Valid() && Route(ev, over, cheatInputActive) != Restart
      modifies this`cheatInputActive, this`cheatInputText, this`bullets, player
      ensures Valid()
      ensures Route(ev, over, old(cheatInputActive)) == Jump ==>
        player == old(player) && unchanged(this)
        && StateOf(player) == old(StateOf(player)).(velY := if old(player.onGround) then JUMP_POWER else old(player.velY))
      ensures Editing(Route(ev, over, old(cheatInputActive))) ==>
        player == old(player) && SceneOf() == old(SceneOf())
        && (cheatInputActive, cheatInputText) == CheatInput(Route(ev, over, old(cheatInputActive)), old(cheatInputActive), old(cheatInputText), ev.text)
        && StateOf(player) == if Route(ev, over, old(cheatInputActive)) == Submit && IsCheatCode(old(cheatInputText))
                              then old(StateOf(player)).(infiniteInvincibility := true, isInvincible := true)
                              else old(StateOf(player))
      ensures Route(ev, over, old(cheatInputActive)) == Fire ==>
        player == old(player) && SceneOf() == old(SceneOf()).(bullets := bullets) && !cheatInputActive && cheatInputText == old(cheatInputText)
        && if old(player.shootCooldown) == 0 then
             bullets == old(bullets) + [ShotFrom(player.x, player.y, player.facingRight)]
             && StateOf(player) == old(StateOf(player)).(shootCooldown := BULLET_COOLDOWN_FRAMES)
           else
             bullets == old(bullets) && unchanged(player)
      ensures Route(ev, over, old(cheatInputActive)) == Ignore ==> unchanged(this) && unchanged(player)
    {
      var a := Route(ev, over, cheatInputActive);
      if a == Jump {
        player.Jump();
      } else if Editing(a) {
        EditCheat(a, ev.text);
      } else if a == Fire {
        FireKey();
      }
    }

    /** A cheat-input key. */
    method EditCheat(a: Action, typed: string)
      requires Valid() && Editing(a)
      modifies this`cheatInputActive, this`cheatInputText, player`infiniteInvincibility, player`isInvincible
      ensures Valid()
      ensures SceneOf() == old(SceneOf())
      ensures (cheatInputActive, cheatInputText) == CheatInput(a, old(cheatInputActive), old(cheatInputText), typed)
      ensures StateOf(player) == if a == Submit && IsCheatCode(old(cheatInputText))
                                 then old(StateOf(player)).(infiniteInvincibility := true, isInvincible := true)
                                 else old(StateOf(player))
    {
      if a == Submit {
        var _ := player.ActivateCheatCode(cheatInputText);
      }
      cheatInputActive, cheatInputText := CheatInput(a, cheatInputActive, cheatInputText, typed).0, CheatInput(a, cheatInputActive, cheatInputText, typed).1;
    }

    /** F with the cheat input closed: a bullet when the player's cooldown has run out. */
    method FireKey()
      requires Valid()
      modifies this`bullets, player`shootCooldown
      ensures Valid()
      ensures SceneOf() == old(SceneOf()).(bullets := bullets)
      ensures if old(player.shootCooldown) == 0 then
                bullets == old(bullets) + [ShotFrom(player.x, player.y, player.facingRight)]
                && StateOf(player) == old(StateOf(player)).(shootCooldown := BULLET_COOLDOWN_FRAMES)
              else
                bullets == old(bullets) && unchanged(player)
    {
      var shot := player.Shoot();
      if shot.Some? {
        bullets := bullets + [shot.value];
      }
    }

    // ------------------------------------------------------------ the frame update

    /**
     * `update`: nothing once the game is lost or won; otherwise one frame of
     * play, after which the game is won when the player is within 100 pixels
     * of the end of the world and lost when no lives are left. A frame costs
     * at most one life, never costs score, and only adds to the world.
     */
    method Update(left: bool, right: bool)
      requires Valid()
      modifies this, player, enemies
      ensures Valid()
      ensures old(gameOver || win) ==> unchanged(this) && unchanged(player)
      ensures !old(gameOver || win) ==>
        old(player.lives) - 1 <= player.lives <= old(player.lives)
        && player.score >= old(player.score)
        && 0 <= player.x <= WORLD_WIDTH - PLAYER_WIDTH
        && old(platforms) <= platforms && lastGeneratedX >= old(lastGeneratedX)
        && win == (player.x >= WORLD_WIDTH - 100) && gameOver == (player.lives <= 0)
    {
      if gameOver || win {
        return;
      }
      MovePlayer(left, right);
      Combat();
      EndFrame();
    }

    /**
     * The end of a frame: the coin and heart passes, then the win and
     * game-over checks, on a game that was neither won nor lost.
     */
    method EndFrame()
      requires Valid() && !gameOver && !win
      modifies this`coins, this`hearts, this`win, this`gameOver, player`score, player`health
      ensures Valid()
      ensures player.score >= old(player.score) && player.lives == old(player.lives) && player.x == old(player.x)
      ensures win == (player.x >= WORLD_WIDTH - 100) && gameOver == (player.lives <= 0)
    {
      CollectCoins();
      CollectHearts();
      if player.x >= WORLD_WIDTH - 100 {
        win := true;
      }
      if player.lives <= 0 {
        gameOver := true;
      }
    }

    /**
     * The first part of a frame: steering, the player's own update, the
     * camera, and one more chunk of world when the player nears the
     * frontier. Only a fall off the screen can cost a life here, and it
     * leaves full health.
     */
    method MovePlayer(left: bool, right: bool)
      requires Valid()
      modifies this`platforms, this`enemies, this`coins, this`lastGeneratedX, this`cameraX, player
      ensures Valid()
      ensures 0 <= player.x <= WORLD_WIDTH - PLAYER_WIDTH
      ensures old(player.lives) - 1 <= player.lives <= old(player.lives)
      ensures player.lives < old(player.lives) ==> player.health == MAX_HEALTH
      ensures player.score == old(player.score)
      ensures old(platforms) <= platforms && lastGeneratedX >= old(lastGeneratedX)
      ensures old(enemies) <= enemies && forall i :: |old(enemies)| <= i < |enemies| ==> fresh(enemies[i])
      ensures player == old(player) && StateOf(player) == PlayerStep(Steer(old(StateOf(player)), left, right), old(platforms))
      ensures cameraX == CameraFor(player.x)
    {
      StepPlayer(left, right);
      FollowCamera();
      ExtendWorld();
    }

    /** Steering and the player's own update, as `Steer` and `PlayerStep` say. */
    method StepPlayer(left: bool, right: bool)
      requires Valid()
      modifies player
      ensures Valid()
      ensures StateOf(player) == PlayerStep(Steer(old(StateOf(player)), left, right), platforms)
    {
      SteerPlayer(left, right);
      player.Update(platforms);
    }

    /**
     * The middle of a frame: the enemy pass, the bullet pass, the hit pass,
     * the explosion pass, the shooting pass, the enemy-bullet pass and the
     * enemy-bullet hit check. The first hit leaves the player invincible for
     * the rest of the frame, so at most one life is lost, and none from full
     * health.
     */
    method Combat()
      requires Valid()
      modifies this`enemies, this`bullets, this`explosions, this`enemyBullets, this`cameraX, player, enemies
      ensures Valid()
      ensures old(player.lives) - 1 <= player.lives <= old(player.lives)
      ensures old(player.health) == MAX_HEALTH ==> player.lives == old(player.lives)
      ensures player.score >= old(player.score)
      ensures player.x == old(player.x) || player.x == SPAWN_X
      ensures forall i :: 0 <= i < |enemies| ==> enemies[i] in old(enemies)
    {
      ghost var v0 := VitalsOf(player, cameraX);
      UpdateEnemies();
      ghost var v1 := VitalsOf(player, cameraX);
      assert v1.invincible || v1 == v0;
      PlayerShots();
      EnemyShots();
    }

    /** The bullet pass, the hit pass and the explosion pass: only the score of the player changes. */
    method PlayerShots()
      requires Valid()
      modifies this`enemies, this`bullets, this`explosions, player`score
      ensures Valid()
      ensures player.score >= old(player.score)
      ensures forall i :: 0 <= i < |enemies| ==> enemies[i] in old(enemies)
    {
      UpdateBullets();
      ResolveBulletHits();
      UpdateExplosions();
    }

    /**
     * The shooting pass, the enemy-bullet pass and the enemy-bullet hit
     * check: an invincible player is untouched, and one life at most is lost,
     * none from more health than one shot takes.
     */
    method EnemyShots()
      requires Valid()
      modifies this`enemyBullets, enemies, player
      ensures Valid()
      ensures player.score == old(player.score) && player.x == old(player.x)
      ensures old(player.isInvincible) ==> VitalsOf(player, cameraX) == old(VitalsOf(player, cameraX))
      ensures old(player.lives) - 1 <= player.lives <= old(player.lives)
      ensures old(player.health) > ENEMY_BULLET_DAMAGE ==> player.lives == old(player.lives)
    {
      FireShooters();
      UpdateEnemyBullets();
      EnemyBulletHits();
    }

    /** The arrow keys: right wins over left, and no key stops the player. */
    method SteerPlayer(left: bool, right: bool)
      modifies player`velX, player`facingRight
      ensures player.velX == if right then PLAYER_SPEED else if left then -PLAYER_SPEED else 0
      ensures player.facingRight == if right then true else if left then false else old(player.facingRight)
    {
      player.velX := 0;
      if left {
        player.velX := -PLAYER_SPEED;
        player.facingRight := false;
      }
      if right {
        player.velX := PLAYER_SPEED;
        player.facingRight := true;
      }
    }

    /** The camera follows the player. */
    method FollowCamera()
      requires Valid()
      modifies this`cameraX
      ensures Valid() && cameraX == CameraFor(player.x)
    {
      cameraX := CameraFor(player.x);
    }

    /**
     * One more chunk of world when the player comes within a chunk of the
     * frontier, which then moves one chunk right.
     */
    method ExtendWorld()
      requires Valid()
      modifies this`platforms, this`enemies, this`coins, this`lastGeneratedX
      ensures Valid()
      ensures old(platforms) <= platforms && old(enemies) <= enemies && old(coins) <= coins
      ensures player.x > old(lastGeneratedX) - CHUNK_WIDTH ==>
        lastGeneratedX == old(lastGeneratedX) + CHUNK_WIDTH && |platforms| > |old(platforms)|
        && (forall i :: |old(platforms)| <= i < |platforms| ==> Generated(platforms[i], old(lastGeneratedX), lastGeneratedX))
      ensures player.x <= old(lastGeneratedX) - CHUNK_WIDTH ==>
        lastGeneratedX == old(lastGeneratedX) && platforms == old(platforms) && enemies == old(enemies) && coins == old(coins)
      ensures forall i :: |old(enemies)| <= i < |enemies| ==> fresh(enemies[i])
    {
      if player.x > lastGeneratedX - CHUNK_WIDTH {
        var start := lastGeneratedX;
        GenerateWorldSegment(start, start + CHUNK_WIDTH);
        lastGeneratedX := start + CHUNK_WIDTH;
      }
    }

    /** The bullet pass: every bullet moves, then the dead ones are dropped. */
    method UpdateBullets()
      requires Valid()
      modifies this`bullets
      ensures Valid() && bullets == LiveBullets(old(bullets))
    {
      var bs := bullets;
      var i := 0;
      while i < |bs|
        invariant 0 <= i <= |bs| == |bullets|
        invariant forall k :: 0 <= k < i ==> bs[k] == BulletStep(bullets[k])
        invariant forall k :: i <= k < |bs| ==> bs[k] == bullets[k]
      {
        bs := bs[i := BulletStep(bs[i])];
        i := i + 1;
      }
      assert bs == StepBullets(bullets);
      bullets := Filter(bs, IsAlive);
    }

    /** The explosion pass: every explosion counts a frame, then the finished ones are dropped. */
    method UpdateExplosions()
      requires Valid()
      modifies this`explosions
      ensures Valid() && explosions == LiveExplosions(old(explosions))
    {
      var es := explosions;
      var i := 0;
      while i < |es|
        invariant 0 <= i <= |es| == |explosions|
        invariant forall k :: 0 <= k < i ==> es[k] == ExplosionStep(explosions[k])
        invariant forall k :: i <= k < |es| ==> es[k] == explosions[k]
      {
        es := es[i := ExplosionStep(es[i])];
        i := i + 1;
      }
      assert es == StepExplosions(explosions);
      explosions := Filter(es, IsRunning);
    }

    /** The enemy-bullet pass: every shot moves, then the dead ones are dropped. */
    method UpdateEnemyBullets()
      requires Valid()
      modifies this`enemyBullets
      ensures Valid() && enemyBullets == LiveEnemyBullets(old(enemyBullets))
    {
      var bs := enemyBullets;
      var i := 0;
      while i < |bs|
        invariant 0 <= i <= |bs| == |enemyBullets|
        invariant forall k :: 0 <= k < i ==> bs[k] == EnemyBulletStep(enemyBullets[k])
        invariant forall k :: i <= k < |bs| ==> bs[k] == enemyBullets[k]
      {
        bs := bs[i := EnemyBulletStep(bs[i])];
        i := i + 1;
      }
      assert bs == StepEnemyBullets(enemyBullets);
      enemyBullets := Filter(bs, IsLiveShot);
    }

    /** The coin pass: every coin the player touches is collected for COIN_SCORE points. */
    method CollectCoins()
      requires Valid()
      modifies this`coins, player`score
      ensures Valid()
      ensures coins == Collect(old(coins), player.Rect())
      ensures player.score == old(player.score) + COIN_SCORE * CoinsHit(old(coins), player.Rect())
    {
      var r := player.Rect();
      var cs := coins;
      var gained := 0;
      var i := 0;
      while i < |cs|
        invariant 0 <= i <= |cs| == |coins|
        invariant forall k :: 0 <= k < i ==> cs[k] == Collect(coins, r)[k]
        invariant forall k :: i <= k < |cs| ==> cs[k] == coins[k]
        invariant gained == CoinsHit(coins[..i], r)
      {
        assert coins[..i + 1][..i] == coins[..i];
        if CoinHit(cs[i], r) {
          cs := cs[i := cs[i].(collected := true)];
          gained := gained + 1;
        }
        i := i + 1;
      }
      assert coins[..i] == coins;
      coins, player.score := cs, player.score + COIN_SCORE * gained;
    }

    /** The heart pass: every heart the player touches is collected and heals, up to full health. */
    method CollectHearts()
      requires Valid()
      modifies this`hearts, player`health
      ensures Valid()
      ensures hearts == TakeHearts(old(hearts), player.Rect())
      ensures player.health == HealAll(old(player.health), old(hearts), player.Rect())
    {
      var r := player.Rect();
      var hs := hearts;
      var h := player.health;
      var i := 0;
      while i < |hs|
        invariant 0 <= i <= |hs| == |hearts|
        invariant forall k :: 0 <= k < i ==> hs[k] == TakeHearts(hearts, r)[k]
        invariant forall k :: i <= k < |hs| ==> hs[k] == hearts[k]
        invariant h == HealAll(player.health, hearts[..i], r)
      {
        assert hearts[..i + 1][..i] == hearts[..i];
        if HeartHit(hs[i], r) {
          h := Healed(h, hs[i]);
          hs := hs[i := hs[i].(collected := true)];
        }
        i := i + 1;
      }
      assert hearts[..i] == hearts;
      hearts, player.health := hs, h;
    }
    /**
     * The enemy pass: each enemy takes its `update`, then, if it touches the
     * player, deals ENEMY_DAMAGE. Only the first hit of the pass can do
     * anything, since it leaves the player invincible.
     */
    method UpdateEnemies()
      requires Valid()
      modifies enemies, player, this`cameraX
      ensures Valid()
      ensures forall i :: 0 <= i < |enemies| ==>
        Stepped(enemies[i], old(enemies[i].x), old(enemies[i].y), old(enemies[i].direction), old(enemies[i].shootCooldown), platforms)
      ensures player.score == old(player.score) && player.shootCooldown == old(player.shootCooldown)
      ensures player.infiniteInvincibility == old(player.infiniteInvincibility)
      ensures HurtAtMostOnce(old(VitalsOf(player, cameraX)), player.infiniteInvincibility, ENEMY_DAMAGE, true, VitalsOf(player, cameraX))
    {
      var i := 0;
      while i < |enemies|
        invariant 0 <= i <= |enemies|
        invariant player.Valid() && 0 <= cameraX <= CAMERA_MAX
        invariant forall k :: 0 <= k < |enemies| ==>
          enemies[k].Valid() && enemies[k].Patrolling()
          && if k < i then
               Stepped(enemies[k], old(enemies[k].x), old(enemies[k].y), old(enemies[k].direction), old(enemies[k].shootCooldown), platforms)
             else
               enemies[k].x == old(enemies[k].x) && enemies[k].y == old(enemies[k].y)
               && enemies[k].direction == old(enemies[k].direction) && enemies[k].shootCooldown == old(enemies[k].shootCooldown)
        invariant player.score == old(player.score) && player.shootCooldown == old(player.shootCooldown)
        invariant player.infiniteInvincibility == old(player.infiniteInvincibility)
        invariant HurtAtMostOnce(old(VitalsOf(player, cameraX)), player.infiniteInvincibility, ENEMY_DAMAGE, true, VitalsOf(player, cameraX))
      {
        ghost var v1 := VitalsOf(player, cameraX);
        EnemyTurn(enemies[i]);
        HurtOnceThenSpared(old(VitalsOf(player, cameraX)), v1, VitalsOf(player, cameraX), player.infiniteInvincibility, ENEMY_DAMAGE, true);
        i := i + 1;
      }
    }

    /**
     * One enemy's turn: its `update`, then the contact check; a death puts
     * the player back at the spawn point and the camera at 0.
     */
    method EnemyTurn(e: Enemy)
      requires player.Valid() && e.Valid()
      modifies e`x, e`y, e`direction, e`shootCooldown, player, this`cameraX
      ensures player.Valid() && e.Valid() && (old(e.Patrolling()) ==> e.Patrolling())
      ensures Stepped(e, old(e.x), old(e.y), old(e.direction), old(e.shootCooldown), platforms)
      ensures player.score == old(player.score) && player.shootCooldown == old(player.shootCooldown)
      ensures player.infiniteInvincibility == old(player.infiniteInvincibility)
      ensures HurtAtMostOnce(old(VitalsOf(player, cameraX)), player.infiniteInvincibility, ENEMY_DAMAGE, true, VitalsOf(player, cameraX))
      ensures VitalsOf(player, cameraX) != old(VitalsOf(player, cameraX)) ==> Overlaps(old(player.Rect()), BodyRect(e.Box()))
    {
      e.Update(platforms);
      if Overlaps(player.Rect(), BodyRect(e.Box())) {
        Contact(ENEMY_DAMAGE);
      }
    }

    /** A contact that deals `damage`; a death puts the player back at the spawn point and the camera at 0. */
    method Contact(damage: int)
      requires player.Valid() && damage >= 0
      modifies player, this`cameraX
      ensures player.Valid()
      ensures player.score == old(player.score) && player.shootCooldown == old(player.shootCooldown)
      ensures player.infiniteInvincibility == old(player.infiniteInvincibility)
      ensures if !old(player.isInvincible) && !old(player.infiniteInvincibility) then
                Hurt(old(VitalsOf(player, cameraX)), player.infiniteInvincibility, damage, true, VitalsOf(player, cameraX))
              else
                VitalsOf(player, cameraX) == old(VitalsOf(player, cameraX))
    {
      var died := player.TakeDamage(damage);
      if died {
        player.x, player.y, player.velX, player.velY := SPAWN_X, SPAWN_Y, 0, 0.0;
        cameraX := 0;
      }
    }

    /**
     * The hit pass: for each enemy the first bullet that overlaps it, dead
     * or alive, is killed, an explosion starts at the enemy's centre and the
     * player scores 25; enemies nothing hit are kept, in order.
     */
    method ResolveBulletHits()
      requires Valid()
      modifies this`enemies, this`bullets, this`explosions, player`score
      ensures Valid()
      ensures enemies == old(Survivors(enemies, bullets))
      ensures explosions == old(explosions) + old(Blasts(enemies, bullets))
      ensures player.score == old(player.score) + ENEMY_KILL_SCORE * |old(Blasts(enemies, bullets))|
      ensures |bullets| == |old(bullets)|
      ensures bullets == old(Marked(enemies, bullets))
      ensures forall i :: 0 <= i < |enemies| ==> enemies[i] in old(enemies)
    {
      var remaining, blasts, bs := ScanHits(enemies, bullets);
      assert remaining == old(Survivors(enemies, bullets)) && blasts == old(Blasts(enemies, bullets)) && bs == old(Marked(enemies, bullets));
      SurvivorsKeepPatrolling(enemies, bullets);
      Install(remaining, bs, blasts);
    }

    /** The end of the hit pass: the surviving enemies, the marked bullets, the new explosions and their points. */
    method Install(remaining: seq<Enemy>, bs: seq<Bullet>, blasts: seq<Explosion>)
      requires Valid() && Patrolling(remaining)
      modifies this`enemies, this`bullets, this`explosions, player`score
      ensures Valid()
      ensures enemies == remaining && bullets == bs && explosions == old(explosions) + blasts
      ensures player.score == old(player.score) + ENEMY_KILL_SCORE * |blasts|
    {
      enemies, bullets, explosions, player.score := remaining, bs, explosions + blasts, player.score + ENEMY_KILL_SCORE * |blasts|;
    }

    /** Where shooters aim: the player's centre. */
    function Target(): (real, real)
      reads this, player
    {
      (player.x as real + PLAYER_WIDTH as real / 2.0, player.y + PLAYER_HEIGHT as real / 2.0)
    }

    /**
     * The shooting pass: every shooter whose cooldown has run out fires one
     * shot from its centre at the player and starts its cooldown again.
     */
    method FireShooters()
      requires Valid()
      modifies this`enemyBullets, enemies
      ensures Valid()
      ensures Fired(enemyBullets, old(enemyBullets), Muzzles(old(Guns(enemies))), Target())
      ensures forall k :: 0 <= k < |enemies| ==>
        Reloaded(enemies[k], old(GunOf(enemies[k])), old(enemies[k].direction), true)
    {
      var shots := Volley(enemies, Target());
      enemyBullets := enemyBullets + shots;
      forall k | 0 <= k < |enemies|
        ensures enemies[k].Valid() && enemies[k].Patrolling()
      {
        assert old(enemies[k].Valid() && enemies[k].Patrolling());
      }
    }

    /** The enemy-bullet hit check against the player. */
    method EnemyBulletHits()
      requires Valid()
      modifies this`enemyBullets, player
      ensures Valid()
      ensures enemyBullets == ShotDown(old(enemyBullets), old(player.Rect()))
      ensures player.score == old(player.score) && player.shootCooldown == old(player.shootCooldown)
      ensures player.infiniteInvincibility == old(player.infiniteInvincibility)
      ensures if AnyShotHits(old(enemyBullets), old(player.Rect())) && !old(player.isInvincible) && !old(player.infiniteInvincibility) then
                Hurt(old(VitalsOf(player, cameraX)), player.infiniteInvincibility, ENEMY_BULLET_DAMAGE, false, VitalsOf(player, cameraX))
              else
                VitalsOf(player, cameraX) == old(VitalsOf(player, cameraX))
    {
      var out := TakeShots(player, enemyBullets);
      enemyBullets := out;
    }
  }

  /** The loop of the shooting pass, over the enemies in list order. */
  method Volley(es: seq<Enemy>, target: (real, real)) returns (shots: seq<EnemyBullet>)
    requires Patrolling(es)
    modifies es
    ensures Fired(shots, [], Muzzles(old(Guns(es))), target)
    ensures forall k :: 0 <= k < |es| ==> Reloaded(es[k], old(GunOf(es[k])), old(es[k].direction), true)
  {
    ghost var guns := Guns(es);
    shots := [];
    var i := 0;
    while i < |es|
      invariant 0 <= i <= |es| == |guns|
      invariant forall k :: 0 <= k < |es| ==> guns[k] == old(GunOf(es[k]))
      invariant forall k :: 0 <= k < |es| ==> Reloaded(es[k], guns[k], old(es[k].direction), k < i)
      invariant Fired(shots, [], Muzzles(guns[..i]), target)
    {
      ghost var before := shots;
      assert GunOf(es[i]) == guns[i];
      var fired := ShooterTurn(es[i], target);
      forall k | 0 <= k < |es| && k != i
        ensures Reloaded(es[k], guns[k], old(es[k].direction), k < i + 1)
      {
        assert es[k] != es[i];
      }
      shots := shots + fired;
      MuzzlesStep(guns, i);
      FiredTwice([], before, shots, Muzzles(guns[..i]), Muzzles([guns[i]]), target);
      i := i + 1;
    }
    assert guns[..i] == guns;
  }

  /** One enemy's turn in the shooting pass. */
  method ShooterTurn(e: Enemy, target: (real, real)) returns (fired: seq<EnemyBullet>)
    requires e.Valid()
    modifies e`shootCooldown
    ensures e.Valid()
    ensures Fired(fired, [], Muzzles([old(GunOf(e))]), target)
    ensures e.shootCooldown == if old(Ready(e.kind, e.shootCooldown)) then ENEMY_SHOOT_COOLDOWN_FRAMES else old(e.shootCooldown)
  {
    assert Muzzles([GunOf(e)]) == (if Ready(e.kind, e.shootCooldown) then [Centre(e.Box())] else []);
    fired := [];
    if e.kind == Shooter && e.shootCooldown == 0 {
      var muzzle := Centre(e.Box());
      var dx, dy := target.0 - muzzle.0, target.1 - muzzle.1;
      assert Aimed(dx, dy, 0.0, 0.0);
      var vx: real, vy: real :| Aimed(dx, dy, vx, vy);
      fired := [EnemyBullet(muzzle.0, muzzle.1, vx, vy, true)];
      e.shootCooldown := ENEMY_SHOOT_COOLDOWN_FRAMES;
    }

  }

  /** The loops of the hit pass, over the enemies and, for each, over the bullets. */
  method ScanHits(es: seq<Enemy>, shots: seq<Bullet>) returns (remaining: seq<Enemy>, blasts: seq<Explosion>, bs: seq<Bullet>)
    ensures remaining == Survivors(es, shots) && blasts == Blasts(es, shots) && bs == Marked(es, shots)
  {
    remaining, blasts, bs := [], [], shots;
    var i := 0;
    while i < |es|
      invariant Scanned(es, shots, i, remaining, blasts, bs)
    {
      var k := FindHit(es[i].Box(), shots);
      ScanStep(es, shots, i, k, remaining, blasts, bs);
      remaining, blasts, bs, i := remaining + (if k.None? then [es[i]] else []),
        blasts + (if k.Some? then [BlastAt(es[i].Box())] else []), Kill(bs, k), i + 1;
    }
    assert es[..i] == es;
  }
}
