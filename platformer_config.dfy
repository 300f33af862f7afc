/** The tuning constants at the top of Platformer/main.py. */
module PlatformerConfig {
  const SCREEN_WIDTH: int := 800
  const SCREEN_HEIGHT: int := 600

  const PLAYER_WIDTH: int := 32
  const PLAYER_HEIGHT: int := 32
  const PLAYER_SPEED: int := 5
  const JUMP_POWER: real := -15.0
  const GRAVITY: real := 0.7
  const MAX_HEALTH: int := 100
  const ENEMY_DAMAGE: int := 20
  const INVINCIBILITY_TIME: int := 60

  const CHEAT_CODE: string := "idkfa"

  const ENEMY_WIDTH: int := 30
  const ENEMY_HEIGHT: int := 30
  const ENEMY_SPEED: int := 2

  const BULLET_SPEED: int := 12
  const BULLET_WIDTH: int := 8
  const BULLET_HEIGHT: int := 3
  const BULLET_COOLDOWN_FRAMES: int := 12

  const SHOOTER_ENEMY_WIDTH: int := 50
  const SHOOTER_ENEMY_HEIGHT: int := 50
  const ENEMY_SHOOT_COOLDOWN_FRAMES: int := 90
  const ENEMY_BULLET_SPEED: real := 6.0
  const ENEMY_BULLET_WIDTH: real := 6.0
  const ENEMY_BULLET_HEIGHT: real := 3.0
  const ENEMY_BULLET_DAMAGE: int := 10

  const EXPLOSION_LIFETIME_FRAMES: int := 20

  const GUN_LENGTH: int := 22
  const GUN_HEIGHT: int := 10
  const GUN_OFFSET_Y: int := 14
  const GUN_OFFSET_X: int := 15

  const COIN_SIZE: int := 20

  const CHUNK_WIDTH: int := 800
  const WORLD_WIDTH: int := 10000
  const PLATFORM_MIN_WIDTH: int := 200
  const PLATFORM_MAX_WIDTH: int := 400

  /** Points for a shot enemy and for a coin; heal amount of a heart. */
  const ENEMY_KILL_SCORE: int := 25
  const COIN_SCORE: int := 10
  const HEART_HEAL: int := 40

  /** Respawn point used by the fall-off reset and by the contact-death reset. */
  const SPAWN_X: int := 100
  const SPAWN_Y: real := 100.0

  /** Camera offsets lie in [0, CAMERA_MAX]. */
  const CAMERA_MAX: int := WORLD_WIDTH - SCREEN_WIDTH
}
