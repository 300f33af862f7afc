/**
 * The control logic of the in-car racer: speed and steering from the held
 * keys, the road and the traffic advancing every frame, the score, crashes
 * and the finish line. Python floats are modelled as reals.
 */
module Driving {
  import opened Geometry
  import opened Seqs

  const MAX_SPEED: real := 260.0
  const ACCEL_RATE: real := 120.0
  const BRAKE_RATE: real := 220.0
  const COAST_RATE: real := 80.0
  const STEER_RATE: real := 2.3
  const LANE_WIDTH: real := 1.0
  const NUM_LANES: int := 2
  const ROAD_CURVE_CHANGE_INTERVAL: real := 8.0
  const SPAWN_INTERVAL: real := 5.0
  const SIDE_OBSTACLE_INTERVAL: real := 1.8
  const OBSTACLE_SPEED_FACTOR: real := 1.0
  const COURSE_LENGTH: real := 5000.0
  /** Half the drivable width: the lane offset is held within plus or minus this. */
  const MAX_OFFSET: real := (NUM_LANES - 1) as real * 0.5

  // ---------------------------------------------------------------- utilities

  function Abs(x: real): real { if x < 0.0 then -x else x }

  /** `clamp(value, lo, hi)`, that is `max(lo, min(hi, value))`. */
  function Clamp(v: real, lo: real, hi: real): (r: real)
    ensures lo <= hi ==> lo <= r <= hi
    ensures lo <= v <= hi ==> r == v
    ensures v < lo ==> r == lo
    ensures lo <= hi < v ==> r == hi
  {
    Max(lo, Min(hi, v))
  }

  /** `r` lies on the segment between `a` and `b`, whichever is larger. */
  predicate Between(r: real, a: real, b: real)
  {
    (a <= b ==> a <= r <= b) && (b <= a ==> b <= r <= a)
  }

  /** Multiplying by a non-negative factor keeps the order. */
  lemma MulMono(x: real, y: real, c: real)
    requires x <= y && c >= 0.0
    ensures x * c <= y * c
  {
  }

  /** A fraction `c` of the way up from `a` to a larger `b` stays within [a, b]. */
  lemma Rising(a: real, b: real, c: real)
    requires 0.0 <= c <= 1.0 && a <= b
    ensures a <= a + (b - a) * c <= b
  {
    MulMono(0.0, c, b - a);
    MulMono(c, 1.0, b - a);
  }

  /** A fraction `c` of the way down from `a` to a smaller `b` stays within [b, a]. */
  lemma Falling(a: real, b: real, c: real)
    requires 0.0 <= c <= 1.0 && b <= a
    ensures b <= a + (b - a) * c <= a
  {
    MulMono(0.0, c, a - b);
    MulMono(c, 1.0, a - b);
  }

  /** Any fraction in [0, 1] of the way from `a` to `b` lies between them. */
  lemma Convex(a: real, b: real, c: real)
    requires 0.0 <= c <= 1.0
    ensures Between(a + (b - a) * c, a, b)
  {
    if a <= b {
      Rising(a, b, c);
    }
    if b <= a {
      Falling(a, b, c);
    }
  }

  /** `_lerp`: the parameter is clamped to [0, 1], so the result never leaves the segment. */
  function Lerp(a: real, b: real, t: real): (r: real)
    ensures Between(r, a, b)
    ensures t <= 0.0 ==> r == a
    ensures t >= 1.0 ==> r == b
  {
    Convex(a, b, Clamp(t, 0.0, 1.0));
    a + (b - a) * Clamp(t, 0.0, 1.0)
  }

  /** `_smooth_damp`: a step of `speed * dt` of the way from `current` to `target`, at most all of it. */
  function SmoothDamp(current: real, target: real, speed: real, dt: real): (r: real)
    ensures Between(r, current, target)
    ensures speed * dt <= 0.0 ==> r == current
    ensures speed * dt >= 1.0 ==> r == target
    ensures r == Lerp(current, target, speed * dt)
  {
    Convex(current, target, Clamp(speed * dt, 0.0, 1.0));
    current + (target - current) * Clamp(speed * dt, 0.0, 1.0)
  }

  // ------------------------------------------------------------ driver input

  /** The keys `handle_input` polls: W or Up, S or Down, A or Left, D or Right. */
  datatype Held = Held(accelerate: bool, brake: bool, left: bool, right: bool)

  /** The target speed after one frame of input. */
  function NextTarget(target: real, keys: Held): (t: real)
    ensures 0.0 <= t <= MAX_SPEED
    ensures keys.accelerate ==> t == MAX_SPEED
    ensures !keys.accelerate && keys.brake ==> t == 0.0
    ensures !keys.accelerate && !keys.brake && 0.0 <= target <= MAX_SPEED ==> t == target
  {
    if keys.accelerate then MAX_SPEED
    else if keys.brake then 0.0
    else Clamp(target, 0.0, MAX_SPEED)
  }

  /**
   * The speed after one frame: it accelerates towards a higher target, brakes
   * or coasts towards a lower one, and is then held within [0, MAX_SPEED].
   */
  function NextSpeed(speed: real, target: real, brake: bool, dt: real): (s: real)
    ensures 0.0 <= s <= MAX_SPEED
    ensures 0.0 <= speed <= MAX_SPEED && dt >= 0.0 && speed < target ==> speed <= s
    ensures 0.0 <= speed <= MAX_SPEED && dt >= 0.0 && speed > target ==> s <= speed
    ensures 0.0 <= speed <= MAX_SPEED && speed == target ==> s == speed
  {
    var moved :=
      if speed < target then speed + ACCEL_RATE * dt
      else if speed > target then speed - (if brake then BRAKE_RATE else COAST_RATE) * dt
      else speed;
    Clamp(moved, 0.0, MAX_SPEED)
  }

  /** Braking never leaves the car faster than coasting would. */
  lemma BrakingSlowsAtLeastAsMuch(speed: real, target: real, dt: real)
    requires dt >= 0.0
    ensures NextSpeed(speed, target, true, dt) <= NextSpeed(speed, target, false, dt)
  {
    if speed > target {
      assert speed - BRAKE_RATE * dt <= speed - COAST_RATE * dt;
    }
  }

  /** The steering axis: left pulls towards -1, right towards +1, both cancel. */
  function InputAxis(keys: Held): (axis: real)
    ensures -1.0 <= axis <= 1.0
    ensures axis < 0.0 <==> keys.left && !keys.right
    ensures axis > 0.0 <==> keys.right && !keys.left
  {
    (if keys.left then -1.0 else 0.0) + (if keys.right then 1.0 else 0.0)
  }

  /** How agile the car is: 1 at standstill, falling linearly to 0.4 at top speed. */
  function SpeedFactor(speed: real): (f: real)
    ensures 0.0 <= speed <= MAX_SPEED ==> 0.4 <= f <= 1.0
    ensures speed == 0.0 ==> f == 1.0
    ensures speed == MAX_SPEED ==> f == 0.4
  {
    0.4 + 0.6 * (1.0 - speed / MAX_SPEED)
  }

  /** A faster car is never more agile than a slower one. */
  lemma FasterIsLessAgile(slow: real, fast: real)
    requires slow <= fast
    ensures SpeedFactor(fast) <= SpeedFactor(slow)
  {
    assert slow / MAX_SPEED <= fast / MAX_SPEED;
  }

  /**
   * How far the car slides sideways in one frame: steering and the road's
   * curve push it, scaled by its agility.
   */
  function Drift(steer: real, curve: real, speed: real, dt: real): (d: real)
    ensures 0.0 <= speed <= MAX_SPEED && dt >= 0.0 && steer >= 0.0 && curve >= 0.0 ==> d >= 0.0
    ensures 0.0 <= speed <= MAX_SPEED && dt >= 0.0 && steer <= 0.0 && curve <= 0.0 ==> d <= 0.0
    ensures steer == 0.0 && curve == 0.0 ==> d == 0.0
  {
    var f := SpeedFactor(speed);
    DriftSign(steer, curve, f, dt);
    (steer * STEER_RATE + curve * 0.3 * f) * f * dt
  }

  /** The lane offset after one frame: moved by the drift, then held on the road. */
  function NextLaneOffset(offset: real, steer: real, curve: real, speed: real, dt: real): (r: real)
    ensures -MAX_OFFSET <= r <= MAX_OFFSET
    ensures -MAX_OFFSET <= offset <= MAX_OFFSET && steer == 0.0 && curve == 0.0 ==> r == offset
    ensures -MAX_OFFSET <= offset <= MAX_OFFSET && 0.0 <= speed <= MAX_SPEED && dt >= 0.0 ==>
              (steer >= 0.0 && curve >= 0.0 ==> offset <= r) && (steer <= 0.0 && curve <= 0.0 ==> r <= offset)
  {
    Clamp(offset + Drift(steer, curve, speed, dt), -MAX_OFFSET, MAX_OFFSET)
  }

  /**
   * With a positive agility `f` and a non-negative time step, steering and
   * curve that both push one way move the car that way.
   */
  lemma DriftSign(steer: real, curve: real, f: real, dt: real)
    ensures f >= 0.0 && dt >= 0.0 && steer >= 0.0 && curve >= 0.0 ==>
              (steer * STEER_RATE + curve * 0.3 * f) * f * dt >= 0.0
    ensures f >= 0.0 && dt >= 0.0 && steer <= 0.0 && curve <= 0.0 ==>
              (steer * STEER_RATE + curve * 0.3 * f) * f * dt <= 0.0
  {
    var push := steer * STEER_RATE + curve * 0.3 * f;
    if f >= 0.0 && dt >= 0.0 && steer >= 0.0 && curve >= 0.0 {
      MulMono(0.0, curve * 0.3, f);
      MulMono(0.0, push, f);
      MulMono(0.0, push * f, dt);
    }
    if f >= 0.0 && dt >= 0.0 && steer <= 0.0 && curve <= 0.0 {
      MulMono(curve * 0.3, 0.0, f);
      MulMono(push, 0.0, f);
      MulMono(push * f, 0.0, dt);
    }
  }

  /** The metres covered in `dt` seconds at `speed` km/h. */
  function Metres(speed: real, dt: real): (m: real)
    ensures speed >= 0.0 && dt >= 0.0 ==> m >= 0.0
  {
    ProductSign(speed / 3.6, dt);
    speed / 3.6 * dt
  }

  /** The product of two non-negative quantities is non-negative. */
  lemma ProductSign(x: real, y: real)
    ensures x >= 0.0 && y >= 0.0 ==> x * y >= 0.0
  {
    if x >= 0.0 && y >= 0.0 {
      MulMono(0.0, x, y);
    }
  }

  /** The gear letter of the dashboard: a fake PRND indicator. */
  function Gear(target: real, speed: real): (g: char)
    ensures g == 'D' <==> target > 0.1
    ensures g == 'N' <==> target <= 0.1 && speed > 0.1
    ensures g == 'P' <==> target <= 0.1 && speed <= 0.1
  {
    if target > 0.1 then 'D' else if speed > 0.1 then 'N' else 'P'
  }

  // ------------------------------------------------------------------ traffic

  /** A car ahead: its distance `z` in metres, its lane and a small sideways shift. */
  datatype Car = Car(z: real, lane: int, xOffset: real)

  datatype Kind = Tree | Sign

  /** A tree or sign beside the road, on side -1 (left) or +1 (right). */
  datatype Scenery = Scenery(z: real, side: int, xOffset: real, kind: Kind)

  /**
   * The values one `update` may draw: the `random.random()` results behind
   * each timer, distance and shift, the `random.uniform(-1, 1)` curve target,
   * the `randrange` lane and the `choice`s of side and kind.
   */
  datatype Draws = Draws(
    curveDelay: real, curveTarget: real,
    carDelay: real, lane: int, carDistance: real, carShift: real,
    sceneryDelay: real, side: int, sceneryDistance: real, kind: Kind, sceneryShift: real)

  /** A value `random.random()` can return. */
  predicate Unit(r: real) { 0.0 <= r < 1.0 }

  /** Every draw lies in the range its random call produces. */
  predicate Fair(d: Draws)
  {
    Unit(d.curveDelay) && -1.0 <= d.curveTarget <= 1.0 &&
    Unit(d.carDelay) && 0 <= d.lane < NUM_LANES && Unit(d.carDistance) && Unit(d.carShift) &&
    Unit(d.sceneryDelay) && (d.side == -1 || d.side == 1) && Unit(d.sceneryDistance) && Unit(d.sceneryShift)
  }

  /** A car as the spawner places it: in a lane, shifted by less than 0.15 either way. */
  predicate Placed(c: Car)
  {
    0 <= c.lane < NUM_LANES && -0.15 <= c.xOffset < 0.15
  }

  /** Scenery as the spawner places it: off one edge of the road, 1.8 to 2.2 out. */
  predicate Beside(s: Scenery)
  {
    (s.side == -1 && -2.2 < s.xOffset <= -1.8) || (s.side == 1 && 1.8 <= s.xOffset < 2.2)
  }

  /** The seconds until the road curve changes again. */
  function CurveDelay(r: real): (t: real)
    ensures Unit(r) ==> 5.6 <= t < 12.0
  {
    ROAD_CURVE_CHANGE_INTERVAL * (0.7 + r * 0.8)
  }

  /** The seconds until the next car. */
  function CarDelay(r: real): (t: real)
    ensures Unit(r) ==> 3.5 <= t < 7.5
  {
    SPAWN_INTERVAL * (0.7 + r * 0.8)
  }

  /** The seconds until the next tree or sign. */
  function SceneryDelay(r: real): (t: real)
    ensures Unit(r) ==> 1.08 <= t < 2.52
  {
    SIDE_OBSTACLE_INTERVAL * (0.6 + r * 0.8)
  }

  /** A new car 140 to 220 metres ahead. */
  function NewCar(d: Draws): (c: Car)
    ensures Fair(d) ==> Placed(c) && 140.0 <= c.z < 220.0
  {
    Car(140.0 + d.carDistance * 80.0, d.lane, (d.carShift - 0.5) * 0.3)
  }

  /** A new tree or sign 120 to 180 metres ahead. */
  function NewScenery(d: Draws): (s: Scenery)
    ensures Fair(d) ==> Beside(s) && 120.0 <= s.z < 180.0
  {
    Scenery(120.0 + d.sceneryDistance * 60.0, d.side,
            d.side as real * (1.8 + d.sceneryShift * 0.4), d.kind)
  }

  /** What a spawner appends: one item when its timer has run out and the game is not over. */
  function SpawnedCars(timer: real, over: bool, d: Draws): (cars: seq<Car>)
    ensures |cars| <= 1
    ensures cars != [] <==> timer <= 0.0 && !over
  {
    if timer <= 0.0 && !over then [NewCar(d)] else []
  }

  function SpawnedScenery(timer: real, over: bool, d: Draws): (items: seq<Scenery>)
    ensures |items| <= 1
    ensures items != [] <==> timer <= 0.0 && !over
  {
    if timer <= 0.0 && !over then [NewScenery(d)] else []
  }

  /** Every car `d` metres closer, nothing else changed. */
  function ApproachCars(cars: seq<Car>, d: real): (moved: seq<Car>)
    ensures |moved| == |cars|
    ensures forall i :: 0 <= i < |cars| ==>
      moved[i].z == cars[i].z - d && moved[i].lane == cars[i].lane && moved[i].xOffset == cars[i].xOffset
  {
    seq(|cars|, i requires 0 <= i < |cars| => cars[i].(z := cars[i].z - d))
  }

  function ApproachScenery(items: seq<Scenery>, d: real): (moved: seq<Scenery>)
    ensures |moved| == |items|
    ensures forall i :: 0 <= i < |items| ==> moved[i] == items[i].(z := items[i].z - d)
  {
    seq(|items|, i requires 0 <= i < |items| => items[i].(z := items[i].z - d))
  }

  /** Still in front of the camera. */
  predicate CarAhead(c: Car) { c.z > 0.5 }

  predicate SceneryAhead(s: Scenery) { s.z > 0.5 }

  /**
   * The cars after they move `d` metres closer: those still more than half a
   * metre ahead, in their original order.
   */
  function CarsAfterPass(cars: seq<Car>, d: real): (kept: seq<Car>)
    ensures |kept| <= |cars|
    ensures forall i :: 0 <= i < |kept| ==> kept[i].z > 0.5
  {
    Filter(ApproachCars(cars, d), CarAhead)
  }

  function SceneryAfterPass(items: seq<Scenery>, d: real): (kept: seq<Scenery>)
    ensures |kept| <= |items|
    ensures forall i :: 0 <= i < |kept| ==> kept[i].z > 0.5
  {
    Filter(ApproachScenery(items, d), SceneryAhead)
  }

  /** When every car stays ahead, the pass drops none, so the score does not move. */
  lemma NoCarPassedKeepsAll(cars: seq<Car>, d: real)
    requires forall i :: 0 <= i < |cars| ==> cars[i].z - d > 0.5
    ensures CarsAfterPass(cars, d) == ApproachCars(cars, d)
  {
    FilterKeepsAll(ApproachCars(cars, d), CarAhead);
  }

  /** The centre of a lane, measured from the middle of the road. */
  function LaneCenter(lane: int): (x: real)
    ensures lane == 0 ==> x == -MAX_OFFSET
    ensures lane == NUM_LANES - 1 ==> x == MAX_OFFSET
  {
    (lane as real - (NUM_LANES - 1) as real * 0.5) * LANE_WIDTH
  }

  /** The car is 2 to 8 metres ahead and less than 0.45 lane widths to the side. */
  predicate Hits(c: Car, offset: real)
  {
    2.0 < c.z < 8.0 && Abs(offset * LANE_WIDTH - (LaneCenter(c.lane) + c.xOffset)) < LANE_WIDTH * 0.45
  }

  predicate CarCrash(cars: seq<Car>, offset: real)
  {
    exists i :: 0 <= i < |cars| && Hits(cars[i], offset)
  }

  /** The off-road test: scenery 1.5 to 6 metres ahead while the car is more than 0.8 out. */
  predicate OffRoadCrash(items: seq<Scenery>, offset: real)
  {
    Abs(offset) > 0.8 && exists i :: 0 <= i < |items| && 1.5 < items[i].z < 6.0
  }

  /** Driving down the centre of a car's own lane runs into it once it is close. */
  lemma OwnLaneHits(c: Car)
    requires Placed(c) && 2.0 < c.z < 8.0
    ensures Hits(c, LaneCenter(c.lane))
  {
  }

  /** Driving down the centre of the other lane never touches the car. */
  lemma OtherLaneIsSafe(c: Car)
    requires Placed(c)
    ensures !Hits(c, LaneCenter(NUM_LANES - 1 - c.lane))
  {
    assert c.lane == 0 || c.lane == 1;
  }

  /**
   * The lane offset never leaves [-0.5, 0.5], so the off-road test, which
   * needs more than 0.8, can never fire.
   */
  lemma OffRoadNeverFires(items: seq<Scenery>, offset: real)
    requires -MAX_OFFSET <= offset <= MAX_OFFSET
    ensures !OffRoadCrash(items, offset)
  {
  }

  // ---------------------------------------------------------------- the loop

  datatype Key = KeyEscape | KeyR | KeyOther
  datatype Event = QuitEvent | KeyDown(key: Key)

  /** Closing the window or Escape ends the program. */
  predicate Exits(e: Event)
  {
    e == QuitEvent || e == KeyDown(KeyEscape)
  }

  /** The racer's state; the wheel's on-screen angle is not modelled. */
  class Game {
    var speedKmh: real
    var targetSpeedKmh: real
    var laneOffset: real
    var steerInput: real
    var roadScroll: real
    var roadCurve: real
    var curveTimer: real
    var distanceTraveled: real
    var obstacles: seq<Car>
    var sideObstacles: seq<Scenery>
    var spawnTimer: real
    var sideSpawnTimer: real
    var score: int
    var gameOver: bool
    var finished: bool
    /** Cars spawned since the last reset. */
    ghost var carsSpawned: nat

    ghost predicate Valid()
      reads this
    {
      MotionValid() && CourseValid() && TrafficValid()
    }

    /** Speeds, steering, the lane offset and the curve stay in their ranges. */
    ghost predicate MotionValid()
      reads this`speedKmh, this`targetSpeedKmh, this`laneOffset, this`steerInput, this`roadCurve
    {
      0.0 <= speedKmh <= MAX_SPEED && 0.0 <= targetSpeedKmh <= MAX_SPEED &&
      -MAX_OFFSET <= laneOffset <= MAX_OFFSET && -1.0 <= steerInput <= 1.0 && -1.0 <= roadCurve <= 1.0
    }

    /** The scroll and the distance advance together; finishing means 5000 metres were covered. */
    ghost predicate CourseValid()
      reads this`roadScroll, this`distanceTraveled, this`finished
    {
      0.0 <= distanceTraveled && roadScroll == distanceTraveled &&
      (finished ==> distanceTraveled >= COURSE_LENGTH)
    }

    /** Every spawned car is either still on the road or counted in the score. */
    ghost predicate TrafficValid()
      reads this`obstacles, this`sideObstacles, this`score, this`carsSpawned
    {
      score >= 0 && score + |obstacles| == carsSpawned &&
      (forall i :: 0 <= i < |obstacles| ==> Placed(obstacles[i])) &&
      (forall i :: 0 <= i < |sideObstacles| ==> Beside(sideObstacles[i]))
    }

    constructor()
      ensures Valid()
      ensures speedKmh == 0.0 && targetSpeedKmh == 0.0 && distanceTraveled == 0.0
      ensures obstacles == [] && sideObstacles == [] && score == 0 && !gameOver && !finished
    {
      new;
      Reset();
    }

    /** `__init__` run again on the same object: every field back to its start value. */
    method Reset()
      modifies this
      ensures Valid()
      ensures speedKmh == 0.0 && targetSpeedKmh == 0.0 && laneOffset == 0.0 && steerInput == 0.0
      ensures roadScroll == 0.0 && roadCurve == 0.0 && curveTimer == 0.0 && distanceTraveled == 0.0
      ensures obstacles == [] && sideObstacles == [] && spawnTimer == 0.0 && sideSpawnTimer == 0.0
      ensures score == 0 && !gameOver && !finished
    {
      ResetCar();
      ResetCourse();
      ResetTraffic();
    }

    /** The car at rest in the middle of the road. */
    method ResetCar()
      modifies this`speedKmh, this`targetSpeedKmh, this`laneOffset, this`steerInput, this`roadCurve
      ensures MotionValid()
      ensures speedKmh == 0.0 && targetSpeedKmh == 0.0 && laneOffset == 0.0 && steerInput == 0.0
      ensures roadCurve == 0.0
    {
      speedKmh := 0.0;
      targetSpeedKmh := 0.0;
      laneOffset := 0.0;
      steerInput := 0.0;
      roadCurve := 0.0;
    }

    /** Back at the start line on a straight road. */
    method ResetCourse()
      modifies this`roadScroll, this`curveTimer, this`distanceTraveled, this`finished
      ensures CourseValid()
      ensures roadScroll == 0.0 && curveTimer == 0.0 && distanceTraveled == 0.0 && !finished
    {
      roadScroll := 0.0;
      curveTimer := 0.0;
      distanceTraveled := 0.0;
      finished := false;
    }

    /** No traffic, no score, and the game not over. */
    method ResetTraffic()
      modifies this`obstacles, this`sideObstacles, this`spawnTimer, this`sideSpawnTimer
      modifies this`score, this`gameOver, this`carsSpawned
      ensures TrafficValid()
      ensures obstacles == [] && sideObstacles == [] && spawnTimer == 0.0 && sideSpawnTimer == 0.0
      ensures score == 0 && !gameOver
    {
      obstacles := [];
      sideObstacles := [];
      spawnTimer := 0.0;
      sideSpawnTimer := 0.0;
      score := 0;
      gameOver := false;
      carsSpawned := 0;
    }

    /** `handle_input`: target speed, speed, steering and lane offset from the held keys. */
    method HandleInput(dt: real, keys: Held)
      requires Valid() && dt >= 0.0
      modifies this`targetSpeedKmh, this`speedKmh, this`steerInput, this`laneOffset
      ensures Valid()
      ensures targetSpeedKmh == NextTarget(old(targetSpeedKmh), keys)
      ensures speedKmh == NextSpeed(old(speedKmh), targetSpeedKmh, keys.brake, dt)
      ensures steerInput == SmoothDamp(old(steerInput), InputAxis(keys), 10.0, dt)
      ensures laneOffset == NextLaneOffset(old(laneOffset), steerInput, roadCurve, speedKmh, dt)
    {
      if keys.accelerate {
        targetSpeedKmh := MAX_SPEED;
      } else if keys.brake {
        targetSpeedKmh := 0.0;
      } else {
        targetSpeedKmh := Clamp(targetSpeedKmh, 0.0, MAX_SPEED);
      }

      if speedKmh < targetSpeedKmh {
        speedKmh := speedKmh + ACCEL_RATE * dt;
      } else if speedKmh > targetSpeedKmh {
        var decel := if keys.brake then BRAKE_RATE else COAST_RATE;
        speedKmh := speedKmh - decel * dt;
      }
      speedKmh := Clamp(speedKmh, 0.0, MAX_SPEED);

      var axis := 0.0;
      if keys.left {
        axis := axis - 1.0;
      }
      if keys.right {
        axis := axis + 1.0;
      }
      steerInput := SmoothDamp(steerInput, axis, 10.0, dt);

      laneOffset := laneOffset + Drift(steerInput, roadCurve, speedKmh, dt);
      laneOffset := Clamp(laneOffset, -MAX_OFFSET, MAX_OFFSET);
    }

    /** The first part of `update`: scroll, distance, road curve and the finish line. */
    method Travel(dt: real, draws: Draws)
      requires Valid() && dt >= 0.0 && Fair(draws)
      modifies this`roadScroll, this`distanceTraveled, this`curveTimer, this`roadCurve
      modifies this`finished, this`targetSpeedKmh
      ensures Valid()
      ensures distanceTraveled == old(distanceTraveled) + Metres(speedKmh, dt)
      ensures roadCurve == if old(curveTimer) - dt <= 0.0
                           then Lerp(old(roadCurve), draws.curveTarget, 0.3) else old(roadCurve)
      ensures curveTimer == if old(curveTimer) - dt <= 0.0 then CurveDelay(draws.curveDelay) else old(curveTimer) - dt
      ensures finished == (old(finished) || distanceTraveled >= COURSE_LENGTH)
      ensures finished && !old(finished) ==> targetSpeedKmh == 0.0
      ensures !(finished && !old(finished)) ==> targetSpeedKmh == old(targetSpeedKmh)
    {
      var covered := Metres(speedKmh, dt);
      roadScroll := roadScroll + covered;
      distanceTraveled := distanceTraveled + covered;

      curveTimer := curveTimer - dt;
      if curveTimer <= 0.0 {
        curveTimer := CurveDelay(draws.curveDelay);
        roadCurve := Lerp(roadCurve, draws.curveTarget, 0.3);
      }

      if distanceTraveled >= COURSE_LENGTH && !finished {
        finished := true;
        targetSpeedKmh := 0.0;
      }
    }

    /** The spawners of `update`: a car and a tree or sign when their timers run out. */
    method SpawnTraffic(dt: real, draws: Draws)
      requires Valid() && Fair(draws)
      modifies this`spawnTimer, this`obstacles, this`sideSpawnTimer, this`sideObstacles, this`carsSpawned
      ensures Valid()
      ensures obstacles == old(obstacles) + SpawnedCars(old(spawnTimer) - dt, gameOver, draws)
      ensures sideObstacles == old(sideObstacles) + SpawnedScenery(old(sideSpawnTimer) - dt, gameOver, draws)
      ensures spawnTimer == if old(spawnTimer) - dt <= 0.0 && !gameOver then CarDelay(draws.carDelay) else old(spawnTimer) - dt
      ensures sideSpawnTimer == if old(sideSpawnTimer) - dt <= 0.0 && !gameOver
                                then SceneryDelay(draws.sceneryDelay) else old(sideSpawnTimer) - dt
    {
      spawnTimer := spawnTimer - dt;
      if spawnTimer <= 0.0 && !gameOver {
        spawnTimer := CarDelay(draws.carDelay);
        obstacles := obstacles + [NewCar(draws)];
        carsSpawned := carsSpawned + 1;
      }

      sideSpawnTimer := sideSpawnTimer - dt;
      if sideSpawnTimer <= 0.0 && !gameOver {
        sideSpawnTimer := SceneryDelay(draws.sceneryDelay);
        sideObstacles := sideObstacles + [NewScenery(draws)];
      }
    }

    /** The car pass of `update`: every car `d` metres closer; those that went by score. */
    static method PassCars(cars: seq<Car>, d: real) returns (kept: seq<Car>, passed: nat)
      requires forall i :: 0 <= i < |cars| ==> Placed(cars[i])
      ensures kept == CarsAfterPass(cars, d)
      ensures passed + |kept| == |cars|
      ensures forall i :: 0 <= i < |kept| ==> Placed(kept[i])
    {
      kept, passed := [], 0;
      for i := 0 to |cars|
        invariant kept == CarsAfterPass(cars[..i], d)
        invariant passed + |kept| == i
        invariant forall k :: 0 <= k < |kept| ==> Placed(kept[k])
      {
        var ob := cars[i].(z := cars[i].z - d * OBSTACLE_SPEED_FACTOR);
        assert ApproachCars(cars[..i + 1], d) == ApproachCars(cars[..i], d) + [ob];
        FilterSnoc(ApproachCars(cars[..i], d), ob, CarAhead);
        if ob.z > 0.5 {
          kept := kept + [ob];
        } else {
          passed := passed + 1;
        }
      }
      assert cars[..|cars|] == cars;
    }

    /** The scenery pass of `update`: the same move and cut, without scoring. */
    static method PassScenery(items: seq<Scenery>, d: real) returns (kept: seq<Scenery>)
      requires forall i :: 0 <= i < |items| ==> Beside(items[i])
      ensures kept == SceneryAfterPass(items, d)
      ensures forall i :: 0 <= i < |kept| ==> Beside(kept[i])
    {
      kept := [];
      for i := 0 to |items|
        invariant kept == SceneryAfterPass(items[..i], d)
        invariant forall k :: 0 <= k < |kept| ==> Beside(kept[k])
      {
        var ob := items[i].(z := items[i].z - d * OBSTACLE_SPEED_FACTOR);
        assert ApproachScenery(items[..i + 1], d) == ApproachScenery(items[..i], d) + [ob];
        FilterSnoc(ApproachScenery(items[..i], d), ob, SceneryAhead);
        if ob.z > 0.5 {
          kept := kept + [ob];
        }
      }
      assert items[..|items|] == items;
    }

    /** The two passes of `update` that move everything `d` metres closer and drop what went by. */
    method MoveTraffic(d: real)
      requires Valid()
      modifies this`obstacles, this`sideObstacles, this`score
      ensures Valid()
      ensures obstacles == CarsAfterPass(old(obstacles), d)
      ensures score == old(score) + (|old(obstacles)| - |obstacles|)
      ensures sideObstacles == SceneryAfterPass(old(sideObstacles), d)
    {
      var newList, passed := PassCars(obstacles, d);
      score := score + passed;
      obstacles := newList;
      var newSideList := PassScenery(sideObstacles, d);
      sideObstacles := newSideList;
    }

    /** The off-road scan: a tree or sign alongside while the car is far off the road. */
    static method OffRoad(items: seq<Scenery>, offset: real) returns (hit: bool)
      ensures hit <==> OffRoadCrash(items, offset)
    {
      hit := false;
      for i := 0 to |items|
        invariant !hit
        invariant Abs(offset) > 0.8 ==> forall k :: 0 <= k < i ==> !(1.5 < items[k].z < 6.0)
      {
        if 1.5 < items[i].z < 6.0 {
          if Abs(offset) > 0.8 {
            hit := true;
            break;
          }
        }
      }
    }

    /** The collision part of `update`: the first car in reach ends the game. */
    method CheckCollisions()
      requires Valid()
      modifies this`gameOver, this`targetSpeedKmh
      ensures Valid()
      ensures gameOver == (old(gameOver) || CarCrash(obstacles, laneOffset))
      ensures gameOver && !old(gameOver) ==> targetSpeedKmh == 0.0
      ensures !(gameOver && !old(gameOver)) ==> targetSpeedKmh == old(targetSpeedKmh)
    {
      if !gameOver {
        var i := 0;
        while i < |obstacles|
          invariant 0 <= i <= |obstacles|
          invariant !gameOver && targetSpeedKmh == old(targetSpeedKmh)
          invariant forall k :: 0 <= k < i ==> !Hits(obstacles[k], laneOffset)
        {
          var ob := obstacles[i];
          if 2.0 < ob.z < 8.0 {
            var laneCenter := (ob.lane as real - (NUM_LANES - 1) as real * 0.5) * LANE_WIDTH;
            var dx := laneOffset * LANE_WIDTH - (laneCenter + ob.xOffset);
            if Abs(dx) < LANE_WIDTH * 0.45 {
              assert Hits(obstacles[i], laneOffset);
              gameOver := true;
              targetSpeedKmh := 0.0;
              break;
            }
          }
          i := i + 1;
        }

        var offRoad := OffRoad(sideObstacles, laneOffset);
        if offRoad {
          gameOver := true;
          targetSpeedKmh := 0.0;
        }
        OffRoadNeverFires(sideObstacles, laneOffset);
      }
    }

    /**
     * `update`: the car covers `speed / 3.6 * dt` metres, traffic spawns and
     * approaches, passed cars score, and a car in reach ends the game.
     */
    method Update(dt: real, draws: Draws)
      requires Valid() && dt >= 0.0 && Fair(draws)
      modifies this`roadScroll, this`distanceTraveled, this`curveTimer, this`roadCurve
      modifies this`finished, this`targetSpeedKmh, this`spawnTimer, this`obstacles
      modifies this`sideSpawnTimer, this`sideObstacles, this`carsSpawned, this`score, this`gameOver
      ensures Valid()
      ensures distanceTraveled == old(distanceTraveled) + Metres(speedKmh, dt)
      ensures finished == (old(finished) || distanceTraveled >= COURSE_LENGTH)
      ensures obstacles == CarsAfterPass(old(obstacles) + SpawnedCars(old(spawnTimer) - dt, old(gameOver), draws),
                                         Metres(speedKmh, dt))
      ensures score == old(score) + (|old(obstacles)| + |SpawnedCars(old(spawnTimer) - dt, old(gameOver), draws)| - |obstacles|)
      ensures gameOver == (old(gameOver) || CarCrash(obstacles, laneOffset))
      ensures curveTimer == if old(curveTimer) - dt <= 0.0 then CurveDelay(draws.curveDelay) else old(curveTimer) - dt
      ensures spawnTimer == if old(spawnTimer) - dt <= 0.0 && !old(gameOver) then CarDelay(draws.carDelay) else old(spawnTimer) - dt
      ensures sideSpawnTimer == if old(sideSpawnTimer) - dt <= 0.0 && !old(gameOver)
                                then SceneryDelay(draws.sceneryDelay) else old(sideSpawnTimer) - dt
    {
      ghost var arriving := obstacles + SpawnedCars(spawnTimer - dt, gameOver, draws);
      var covered := Metres(speedKmh, dt);
      Travel(dt, draws);
      SpawnTraffic(dt, draws);
      assert obstacles == arriving;
      MoveTraffic(covered);
      CheckCollisions();
    }

    /**
     * One pass of `run`: the frame's events (Quit or Escape ends the program,
     * R starts over), then input and physics unless the game is over.
     */
    method Frame(events: seq<Event>, dt: real, keys: Held, draws: Draws) returns (exit: bool)
      requires Valid() && dt >= 0.0 && Fair(draws)
      modifies this
      ensures Valid()
      ensures exit <==> exists i :: 0 <= i < |events| && Exits(events[i])
      ensures !exit && old(gameOver) && (forall i :: 0 <= i < |events| ==> events[i] != KeyDown(KeyR)) ==>
        unchanged(this)
    {
      exit := false;
      for i := 0 to |events|
        invariant Valid()
        invariant forall k :: 0 <= k < i ==> !Exits(events[k])
        invariant (forall k :: 0 <= k < i ==> events[k] != KeyDown(KeyR)) ==> unchanged(this)
      {
        if Exits(events[i]) {
          exit := true;
          return;
        }
        if events[i] == KeyDown(KeyR) {
          Reset();
        }
      }
      if !gameOver {
        HandleInput(dt, keys);
        Update(dt, draws);
      }
    }
  }
}
