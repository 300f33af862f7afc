/**
 * What each pass of the platformer's frame update computes, stated on the
 * game's lists as values. The game object performs these passes with loops
 * and is specified in terms of the functions here.
 */
module PlatformerPasses {
  import opened Options
  import opened Seqs
  import opened Geometry
  import opened PlatformerConfig
  import opened PlatformerItems
  import opened PlatformerEnemy

  /** The camera centres the player, clamped to the world. */
  function CameraFor(playerX: int): (c: int)
    ensures 0 <= c <= CAMERA_MAX
    ensures 0 <= playerX - SCREEN_WIDTH / 2 <= CAMERA_MAX ==> c == playerX - SCREEN_WIDTH / 2
    ensures playerX - SCREEN_WIDTH / 2 < 0 ==> c == 0
    ensures playerX - SCREEN_WIDTH / 2 > CAMERA_MAX ==> c == CAMERA_MAX
  {
    var target := playerX - SCREEN_WIDTH / 2;
    var m := if target < CAMERA_MAX then target else CAMERA_MAX;
    if m < 0 then 0 else m
  }

  /** The camera never moves left when the player moves right. */
  lemma CameraMonotone(x1: int, x2: int)
    requires x1 <= x2
    ensures CameraFor(x1) <= CameraFor(x2)
  {
  }

  // ------------------------------------------------------------ bullets

  function IsAlive(b: Bullet): bool { b.alive }

  /** Every bullet moved by one frame. */
  function StepBullets(bs: seq<Bullet>): seq<Bullet>
  {
    seq(|bs|, i requires 0 <= i < |bs| => BulletStep(bs[i]))
  }

  /**
   * The bullet pass: move every bullet, then drop the dead ones. What is
   * left is alive and inside the world.
   */
  function LiveBullets(bs: seq<Bullet>): (r: seq<Bullet>)
    ensures |r| <= |bs|
    ensures forall i :: 0 <= i < |r| ==> r[i].alive && 0 <= r[i].x <= WORLD_WIDTH
    ensures forall i :: 0 <= i < |bs| && bs[i].alive && 0 <= bs[i].x + bs[i].speed <= WORLD_WIDTH ==>
      BulletStep(bs[i]) in r
  {
    var stepped := StepBullets(bs);
    assert forall i :: 0 <= i < |bs| ==> stepped[i] == BulletStep(bs[i]);
    FilterMembers(stepped, IsAlive);
    Filter(stepped, IsAlive)
  }

  function IsLiveShot(b: EnemyBullet): bool { b.alive }

  function StepEnemyBullets(bs: seq<EnemyBullet>): seq<EnemyBullet>
  {
    seq(|bs|, i requires 0 <= i < |bs| => EnemyBulletStep(bs[i]))
  }

  /** The enemy-bullet pass: move, then drop those dead or out of bounds. */
  function LiveEnemyBullets(bs: seq<EnemyBullet>): (r: seq<EnemyBullet>)
    ensures |r| <= |bs|
    ensures forall i :: 0 <= i < |r| ==> r[i].alive && !EnemyBulletOut(r[i].x, r[i].y)
  {
    var stepped := StepEnemyBullets(bs);
    assert forall i :: 0 <= i < |bs| ==> stepped[i] == EnemyBulletStep(bs[i]);
    FilterMembers(stepped, IsLiveShot);
    Filter(stepped, IsLiveShot)
  }

  // ------------------------------------------------------------ explosions

  function IsRunning(e: Explosion): bool { !e.done }

  function StepExplosions(es: seq<Explosion>): seq<Explosion>
  {
    seq(|es|, i requires 0 <= i < |es| => ExplosionStep(es[i]))
  }

  /** The explosion pass: count a frame on each, then drop the finished ones. */
  function LiveExplosions(es: seq<Explosion>): (r: seq<Explosion>)
    ensures |r| <= |es|
    ensures forall i :: 0 <= i < |r| ==> !r[i].done && r[i].frame < EXPLOSION_LIFETIME_FRAMES
  {
    var stepped := StepExplosions(es);
    assert forall i :: 0 <= i < |es| ==> stepped[i] == ExplosionStep(es[i]);
    FilterMembers(stepped, IsRunning);
    Filter(stepped, IsRunning)
  }

  // ------------------------------------------------------------ bullet hits

  /** Index of the first bullet, in list order, overlapping an enemy's box. */
  function FirstHit(box: Body, shots: seq<Bullet>): (k: Option<nat>)
    ensures k.Some? ==> k.value < |shots| && Overlaps(BulletRect(shots[k.value]), BodyRect(box))
    ensures k.Some? ==> forall j :: 0 <= j < k.value ==> !Overlaps(BulletRect(shots[j]), BodyRect(box))
    ensures k.None? <==> forall j :: 0 <= j < |shots| ==> !Overlaps(BulletRect(shots[j]), BodyRect(box))
  {
    FirstIndex(shots, (b: Bullet) => Overlaps(BulletRect(b), BodyRect(box)))
  }

  /** The enemies no bullet overlaps, in their original order. */
  function Survivors(es: seq<Enemy>, shots: seq<Bullet>): seq<Enemy>
    reads es
  {
    if es == [] then []
    else
      var last := es[|es| - 1];
      Survivors(es[..|es| - 1], shots) + (if FirstHit(last.Box(), shots).None? then [last] else [])
  }

  /** The explosion a hit enemy leaves, at its centre. */
  function BlastAt(box: Body): Explosion
  {
    var c := BodyCentre(box);
    NewExplosion(c.0, c.1)
  }

  /** One explosion, at the enemy's centre, per enemy a bullet overlaps. */
  function Blasts(es: seq<Enemy>, shots: seq<Bullet>): seq<Explosion>
    reads es
  {
    if es == [] then []
    else
      var last := es[|es| - 1];
      Blasts(es[..|es| - 1], shots) + (if FirstHit(last.Box(), shots).Some? then [BlastAt(last.Box())] else [])
  }

  /** The bullets with bullet `k`, if any, killed. */
  function Kill(bs: seq<Bullet>, k: Option<nat>): (r: seq<Bullet>)
    ensures |r| == |bs|
  {
    if k.Some? && k.value < |bs| then bs[k.value := bs[k.value].(alive := false)] else bs
  }

  /** The bullets after the hit pass: each enemy's first hit is killed. */
  function Marked(es: seq<Enemy>, shots: seq<Bullet>): (r: seq<Bullet>)
    reads es
    ensures |r| == |shots|
  {
    if es == [] then shots
    else Kill(Marked(es[..|es| - 1], shots), FirstHit(es[|es| - 1].Box(), shots))
  }

  /** The hit pass has scanned the first `i` enemies. */
  ghost predicate Scanned(es: seq<Enemy>, shots: seq<Bullet>, i: nat,
                          remaining: seq<Enemy>, blasts: seq<Explosion>, bs: seq<Bullet>)
    reads es
  {
    i <= |es| && remaining == Survivors(es[..i], shots) && blasts == Blasts(es[..i], shots) && bs == Marked(es[..i], shots)
  }

  /** Scanning enemy `i`, whose first hit is `k`. */
  lemma ScanStep(es: seq<Enemy>, shots: seq<Bullet>, i: nat, k: Option<nat>,
                 remaining: seq<Enemy>, blasts: seq<Explosion>, bs: seq<Bullet>)
    requires i < |es| && k == FirstHit(es[i].Box(), shots)
    requires Scanned(es, shots, i, remaining, blasts, bs)
    ensures Scanned(es, shots, i + 1, remaining + (if k.None? then [es[i]] else []),
                    blasts + (if k.Some? then [BlastAt(es[i].Box())] else []), Kill(bs, k))
  {
    assert es[..i + 1][..i] == es[..i];
  }

  /** Bullet `j` is the first hit of some enemy. */
  ghost predicate Struck(es: seq<Enemy>, shots: seq<Bullet>, j: nat)
    reads es
  {
    exists i :: 0 <= i < |es| && FirstHit(es[i].Box(), shots) == Some(j)
  }

  /**
   * Every enemy either survives or explodes: the two lists split the
   * enemies, survivors are enemies of the list, and distinct enemies stay
   * distinct.
   */
  lemma {:induction false} SurvivorsSplit(es: seq<Enemy>, shots: seq<Bullet>)
    ensures |Survivors(es, shots)| + |Blasts(es, shots)| == |es|
    ensures forall i :: 0 <= i < |Survivors(es, shots)| ==> Survivors(es, shots)[i] in es
    ensures Distinct(es) ==> Distinct(Survivors(es, shots))
    decreases |es|
  {
    if es != [] {
      var init := es[..|es| - 1];
      var last := es[|es| - 1];
      SurvivorsSplit(init, shots);
      var s := Survivors(init, shots);
      forall i | 0 <= i < |s|
        ensures s[i] in es
      {
        assert s[i] in init;
      }
      if Distinct(es) {
        assert Distinct(init);
        if FirstHit(last.Box(), shots).None? {
          forall i | 0 <= i < |s|
            ensures s[i] != last
          {
            var k :| 0 <= k < |init| && init[k] == s[i];
            assert es[k] == init[k];
          }
        }
      }
    }
  }

  /** Extending the scanned prefix by one enemy. */
  lemma StruckSnoc(es: seq<Enemy>, e: Enemy, shots: seq<Bullet>, j: nat)
    ensures Struck(es + [e], shots, j) <==> Struck(es, shots, j) || FirstHit(e.Box(), shots) == Some(j)
  {
    if Struck(es + [e], shots, j) && FirstHit(e.Box(), shots) != Some(j) {
      var i :| 0 <= i < |es + [e]| && FirstHit((es + [e])[i].Box(), shots) == Some(j);
      assert i < |es| && (es + [e])[i] == es[i];
    }
    if Struck(es, shots, j) {
      var i :| 0 <= i < |es| && FirstHit(es[i].Box(), shots) == Some(j);
      assert (es + [e])[i] == es[i];
    }
    if FirstHit(e.Box(), shots) == Some(j) {
      assert (es + [e])[|es|] == e;
    }
  }

  /**
   * The hit pass kills exactly the bullets that are some enemy's first hit,
   * and changes nothing else about any bullet.
   */
  lemma {:induction false} MarkedKillsStruck(es: seq<Enemy>, shots: seq<Bullet>)
    ensures forall j :: 0 <= j < |shots| ==>
      Marked(es, shots)[j] == shots[j].(alive := shots[j].alive && !Struck(es, shots, j))
    decreases |es|
  {
    if es != [] {
      var init := es[..|es| - 1];
      var last := es[|es| - 1];
      MarkedKillsStruck(init, shots);
      assert es == init + [last];
      forall j | 0 <= j < |shots|
        ensures Marked(es, shots)[j] == shots[j].(alive := shots[j].alive && !Struck(es, shots, j))
      {
        StruckSnoc(init, last, shots, j);
      }
    }
  }

  // ------------------------------------------------------------ shooters

  /** A shooter fires when its cooldown has run out. */
  predicate Ready(kind: EnemyKind, cooldown: int)
  {
    kind == Shooter && cooldown == 0
  }

  /** What the shooting pass reads of an enemy. */
  datatype Gun = Gun(kind: EnemyKind, cooldown: int, box: Body)

  function GunOf(e: Enemy): Gun
    reads e
  {
    Gun(e.kind, e.shootCooldown, e.Box())
  }

  /** The guns of a list of enemies. */
  function Guns(es: seq<Enemy>): (r: seq<Gun>)
    reads es
    ensures |r| == |es| && forall i :: 0 <= i < |es| ==> r[i] == GunOf(es[i])
  {
    seq(|es|, i reads es requires 0 <= i < |es| => GunOf(es[i]))
  }

  /** A box's centre, with true division. */
  function Centre(b: Body): (real, real)
  {
    (b.x as real + b.width as real / 2.0, b.y as real + b.height as real / 2.0)
  }

  /** Where the ready shooters fire from, in list order: their centres. */
  function Muzzles(guns: seq<Gun>): (r: seq<(real, real)>)
    ensures |r| <= |guns|
  {
    if guns == [] then []
    else
      var g := guns[|guns| - 1];
      Muzzles(guns[..|guns| - 1]) + (if Ready(g.kind, g.cooldown) then [Centre(g.box)] else [])
  }

  /** The muzzles of the first `i + 1` guns. */
  lemma MuzzlesStep(guns: seq<Gun>, i: nat)
    requires i < |guns|
    ensures Muzzles(guns[..i + 1]) == Muzzles(guns[..i]) + Muzzles([guns[i]])
  {
    assert guns[..i + 1][..i] == guns[..i];
    assert [guns[i]][..0] == [];
  }

  /**
   * A velocity aimed from a shooter at the player, `(dx, dy)` away: along the
   * line to the player, towards it, and no faster than ENEMY_BULLET_SPEED.
   */
  predicate Aimed(dx: real, dy: real, vx: real, vy: real)
  {
    vx * dy == vy * dx && vx * dx >= 0.0 && vy * dy >= 0.0
    && vx * vx + vy * vy <= ENEMY_BULLET_SPEED * ENEMY_BULLET_SPEED
  }

  /** A new shot fired from `m` at `target`. */
  ghost predicate ShotAt(b: EnemyBullet, m: (real, real), target: (real, real))
  {
    b.x == m.0 && b.y == m.1 && b.alive && Aimed(target.0 - m.0, target.1 - m.1, b.vx, b.vy)
  }

  /** `now` is `before` followed by one shot at `target` from each muzzle, in order. */
  ghost predicate Fired(now: seq<EnemyBullet>, before: seq<EnemyBullet>, muzzles: seq<(real, real)>, target: (real, real))
  {
    |now| == |before| + |muzzles| && before <= now
    && forall j :: 0 <= j < |muzzles| ==> ShotAt(now[|before| + j], muzzles[j], target)
  }

  /** Firing one volley after another fires both, in order. */
  lemma FiredTwice(a: seq<EnemyBullet>, b: seq<EnemyBullet>, c: seq<EnemyBullet>,
                   ms1: seq<(real, real)>, ms2: seq<(real, real)>, target: (real, real))
    requires Fired(b, a, ms1, target) && Fired(c, b, ms2, target)
    ensures Fired(c, a, ms1 + ms2, target)
  {
    forall j | 0 <= j < |ms1 + ms2|
      ensures ShotAt(c[|a| + j], (ms1 + ms2)[j], target)
    {
      if j < |ms1| {
        assert c[|a| + j] == b[|a| + j];
      } else {
        assert c[|a| + j] == c[|b| + (j - |ms1|)];
      }
    }
  }

  // ------------------------------------------------------------ coins

  /** The coin pass at one player position: every coin the player touches is collected. */
  function Collect(cs: seq<Coin>, player: Rect): (r: seq<Coin>)
    ensures |r| == |cs|
    ensures forall i :: 0 <= i < |cs| ==> r[i].x == cs[i].x && r[i].y == cs[i].y
    ensures forall i :: 0 <= i < |cs| ==> (r[i].collected <==> cs[i].collected || Overlaps(player, CoinRect(cs[i])))
  {
    seq(|cs|, i requires 0 <= i < |cs| => if CoinHit(cs[i], player) then cs[i].(collected := true) else cs[i])
  }

  /** How many coins the pass collects. */
  function CoinsHit(cs: seq<Coin>, player: Rect): (n: nat)
    ensures n <= |cs|
  {
    if cs == [] then 0
    else CoinsHit(cs[..|cs| - 1], player) + (if CoinHit(cs[|cs| - 1], player) then 1 else 0)
  }

  /** Nothing is left to collect right after a pass. */
  lemma {:induction false} CollectLeavesNothing(cs: seq<Coin>, player: Rect)
    ensures CoinsHit(Collect(cs, player), player) == 0
    decreases |cs|
  {
    if cs != [] {
      var init := cs[..|cs| - 1];
      CollectLeavesNothing(init, player);
      assert Collect(cs, player)[..|cs| - 1] == Collect(init, player);
    }
  }

  /** Collecting twice at the same position is the same as collecting once, and scores nothing more. */
  lemma CollectIdempotent(cs: seq<Coin>, player: Rect)
    ensures Collect(Collect(cs, player), player) == Collect(cs, player)
    ensures CoinsHit(Collect(cs, player), player) == 0
  {
    CollectLeavesNothing(cs, player);
  }

  // ------------------------------------------------------------ hearts

  /** The heart pass: each heart the player touches is collected and heals in turn. */
  function HealAll(health: int, hs: seq<Heart>, player: Rect): (r: int)
    requires 0 < health <= MAX_HEALTH
    requires forall i :: 0 <= i < |hs| ==> hs[i].healAmount >= 0
    ensures health <= r <= MAX_HEALTH
    ensures (exists i :: 0 <= i < |hs| && HeartHit(hs[i], player) && hs[i].healAmount == HEART_HEAL) ==>
      r == MAX_HEALTH || r >= health + HEART_HEAL
    ensures (forall i :: 0 <= i < |hs| ==> !HeartHit(hs[i], player)) ==> r == health
  {
    if hs == [] then health
    else
      var init := hs[..|hs| - 1];
      var last := hs[|hs| - 1];
      var before := HealAll(health, init, player);
      assert forall i :: 0 <= i < |init| ==> init[i] == hs[i];
      if HeartHit(last, player) then Healed(before, last) else before
  }

  function TakeHearts(hs: seq<Heart>, player: Rect): (r: seq<Heart>)
    ensures |r| == |hs|
    ensures forall i :: 0 <= i < |hs| ==> r[i] == hs[i].(collected := hs[i].collected || Overlaps(player, HeartRect(hs[i])))
  {
    seq(|hs|, i requires 0 <= i < |hs| => if HeartHit(hs[i], player) then hs[i].(collected := true) else hs[i])
  }
}
