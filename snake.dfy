/**
 * The per-frame step of the snake game: arrow keys set the velocity, the
 * head moves one block, the body is a bounded queue of the latest head
 * positions, and the game ends on leaving the screen or running into the
 * body. Eating an apple lengthens the snake by one.
 */
module Snake {
  import opened Options
  import opened Geometry

  const DISPLAY_WIDTH: int := 800
  const DISPLAY_HEIGHT: int := 600
  const BLOCK_SIZE: int := 20
  const APPLE_THICKNESS: int := 35

  /** A head position; `snakeList` holds these, oldest first. */
  type Cell = (int, int)

  /** Per-frame change of the head position. */
  type Velocity = (int, int)

  /** The `direction` global, which only chooses how the head image is turned. */
  datatype Heading = Up | Down | Left | Right

  datatype Key = KeyLeft | KeyRight | KeyUp | KeyDown | KeyP | KeyQ | KeySpace | KeyOther

  datatype Event = QuitEvent | Press(key: Key)

  // ------------------------------------------------------------ keys

  predicate IsArrow(k: Key)
  {
    k in {KeyLeft, KeyRight, KeyUp, KeyDown}
  }

  /** The velocity an arrow key sets: one block along one axis, nothing along the other. */
  function ArrowVelocity(k: Key): (v: Velocity)
    requires IsArrow(k)
    ensures (v.0 == 0) != (v.1 == 0)
    ensures v.0 == 0 || v.0 == BLOCK_SIZE || v.0 == -BLOCK_SIZE
    ensures v.1 == 0 || v.1 == BLOCK_SIZE || v.1 == -BLOCK_SIZE
    ensures k == KeyLeft ==> v.0 < 0
    ensures k == KeyRight ==> v.0 > 0
    ensures k == KeyUp ==> v.1 < 0
    ensures k == KeyDown ==> v.1 > 0
  {
    match k
    case KeyLeft => (-BLOCK_SIZE, 0)
    case KeyRight => (BLOCK_SIZE, 0)
    case KeyUp => (0, -BLOCK_SIZE)
    case KeyDown => (0, BLOCK_SIZE)
  }

  function ArrowHeading(k: Key): Heading
    requires IsArrow(k)
  {
    match k
    case KeyLeft => Left
    case KeyRight => Right
    case KeyUp => Up
    case KeyDown => Down
  }

  /** The velocities the snake can have: standing still (before the first key) or one arrow's. */
  predicate Steady(v: Velocity)
  {
    v == (0, 0) || v == (-BLOCK_SIZE, 0) || v == (BLOCK_SIZE, 0) || v == (0, -BLOCK_SIZE) || v == (0, BLOCK_SIZE)
  }

  /** What the event loop of a frame tracks: velocity, heading and the exit flag. */
  datatype Controls = Controls(change: Velocity, heading: Heading, exit: bool)

  /**
   * The event loop of one frame, over the events of the frame in order: the
   * window's close button sets the exit flag, an arrow key sets velocity and
   * heading, any other key (including P, whose pause screen is not part of
   * this model) changes nothing.
   */
  function ReadEvents(c: Controls, events: seq<Event>): Controls
    decreases |events|
  {
    if events == [] then c
    else
      var c1 := ReadEvents(c, events[..|events| - 1]);
      match events[|events| - 1]
      case QuitEvent => c1.(exit := true)
      case Press(k) => if IsArrow(k) then c1.(change := ArrowVelocity(k), heading := ArrowHeading(k)) else c1
  }

  /** The last arrow key among the events, searching from the end. */
  function LastArrow(events: seq<Event>): (k: Option<Key>)
    ensures k.Some? ==> IsArrow(k.value) && Press(k.value) in events
    ensures k.None? <==> forall i :: 0 <= i < |events| ==> !(events[i].Press? && IsArrow(events[i].key))
    decreases |events|
  {
    if events == [] then None
    else
      var e := events[|events| - 1];
      if e.Press? && IsArrow(e.key) then Some(e.key)
      else
        var k := LastArrow(events[..|events| - 1]);
        assert forall i :: 0 <= i < |events| - 1 ==> events[..|events| - 1][i] == events[i];
        k
  }

  /**
   * Reversal is not blocked and several keys in one frame do not add up:
   * the velocity after a frame's events is that of the last arrow key among
   * them, or the old one if there is none; the exit flag is set exactly when
   * the close button was among them.
   */
  lemma {:induction false} ReadEventsMeaning(c: Controls, events: seq<Event>)
    ensures ReadEvents(c, events).change == match LastArrow(events) case None => c.change case Some(k) => ArrowVelocity(k)
    ensures ReadEvents(c, events).exit <==> c.exit || QuitEvent in events
    decreases |events|
  {
    if events != [] {
      var init := events[..|events| - 1];
      ReadEventsMeaning(c, init);
      assert events == init + [events[|events| - 1]];
      assert QuitEvent in events <==> QuitEvent in init || events[|events| - 1] == QuitEvent;
    }
  }

  /** So the velocity always stays steady. */
  lemma ReadEventsSteady(c: Controls, events: seq<Event>)
    requires Steady(c.change)
    ensures Steady(ReadEvents(c, events).change)
  {
    ReadEventsMeaning(c, events);
    match LastArrow(events)
    case None =>
    case Some(k) =>
      assert IsArrow(k) && ReadEvents(c, events).change == ArrowVelocity(k);
  }

  // ------------------------------------------------------------ the body

  /**
   * The head position is checked before the move: the game ends when it is
   * off the 800 by 600 screen.
   */
  predicate OutOfBounds(x: int, y: int)
  {
    x >= DISPLAY_WIDTH || x < 0 || y >= DISPLAY_HEIGHT || y < 0
  }

  /**
   * The body after the head moved to `head`: the head is appended, and the
   * oldest segment is dropped when the list is longer than `length`. The
   * result is the newest part of the old body followed by the head, no longer
   * than `length`, one longer than before until it reaches `length`.
   */
  function Advance(body: seq<Cell>, head: Cell, length: int): (r: seq<Cell>)
    requires 1 <= length
    ensures 1 <= |r| <= |body| + 1 && r[|r| - 1] == head
    ensures |body| <= length ==> |r| == (if |body| < length then |body| + 1 else length)
  {
    var b := body + [head];
    if |b| > length then b[1..] else b
  }

  /** `s` is the newest part of `t`: its last `|s|` elements. */
  ghost predicate IsNewest(s: seq<Cell>, t: seq<Cell>)
  {
    |s| <= |t| && s == t[|t| - |s|..]
  }

  /**
   * The body stays the newest positions of the head's trail: a frame adds
   * the new head to both.
   */
  lemma AdvanceKeepsNewest(body: seq<Cell>, trail: seq<Cell>, head: Cell, length: int)
    requires 1 <= length && IsNewest(body, trail)
    ensures IsNewest(Advance(body, head, length), trail + [head])
  {
    var t := trail + [head];
    var b := body + [head];
    assert b == t[|t| - |b|..];
    if |b| > length {
      assert b[1..] == t[|t| - |b| + 1..];
    }
  }

  /** The head (the last segment) lies on one of the other segments. */
  predicate HitsSelf(body: seq<Cell>)
  {
    exists i :: 0 <= i < |body| - 1 && body[i] == body[|body| - 1]
  }

  /**
   * The loop over `snakeList[:-1]`: whether any of the other segments equals
   * the head.
   */
  method CollidesWithBody(segments: seq<Cell>, head: Cell) returns (hit: bool)
    ensures hit <==> exists i :: 0 <= i < |segments| && segments[i] == head
  {
    hit := false;
    for i := 0 to |segments|
      invariant hit <==> exists j :: 0 <= j < i && segments[j] == head
    {
      if segments[i] == head {
        hit := true;
      }
    }
  }

  /**
   * The body update of a frame: append the new head, drop the oldest
   * segment when the list is longer than the length, then look for the head
   * among the other segments.
   */
  method Grow(body: seq<Cell>, head: Cell, length: int) returns (list: seq<Cell>, hit: bool)
    requires 1 <= length
    ensures list == Advance(body, head, length)
    ensures hit <==> HitsSelf(list)
  {
    list := body + [head];
    if |list| > length {
      list := list[1..];
    }
    var others := list[..|list| - 1];
    hit := CollidesWithBody(others, head);
  }

  /**
   * With the body as a queue of the last positions, turning straight back
   * runs into the neck: a snake of length three or more whose last step was
   * against the key pressed dies, because the new head lands on the neck and
   * the dropped segment is the tail, not the neck.
   */
  lemma ReversalRunsIntoNeck(body: seq<Cell>, length: int, k: Key, c: Controls)
    requires IsArrow(k) && 3 <= |body| == length
    requires var v := ArrowVelocity(k); var neck := body[|body| - 2];
      body[|body| - 1] == (neck.0 - v.0, neck.1 - v.1)
    ensures var v := ReadEvents(c, [Press(k)]).change; var h := body[|body| - 1];
      HitsSelf(Advance(body, (h.0 + v.0, h.1 + v.1), length))
  {
    assert [Press(k)][..0] == [];
    var h := body[|body| - 1];
    var neck := body[|body| - 2];
    var r := Advance(body, neck, length);
    assert r == body[1..] + [neck];
    assert r[|r| - 3] == neck;
  }

  /**
   * A snake of length two survives the same turn: the segment dropped from
   * the queue is the neck the head moves onto.
   */
  lemma ReversalOfTwoSurvives(body: seq<Cell>, k: Key, c: Controls)
    requires IsArrow(k) && |body| == 2
    requires var v := ArrowVelocity(k); body[1] == (body[0].0 - v.0, body[0].1 - v.1)
    ensures var v := ReadEvents(c, [Press(k)]).change; var h := body[1];
      !HitsSelf(Advance(body, (h.0 + v.0, h.1 + v.1), 2))
  {
    assert [Press(k)][..0] == [];
    var r := Advance(body, body[0], 2);
    assert r == [body[1], body[0]];
  }

  /**
   * A snake that has grown but not yet moved dies on the next frame: the
   * head is appended on top of itself. This happens when the first apple
   * covers the start square and no key is pressed.
   */
  lemma IdleAfterGrowingDies(x: int, y: int)
    ensures HitsSelf(Advance([(x, y)], (x + 0, y + 0), 2))
  {
    var r := Advance([(x, y)], (x, y), 2);
    assert r == [(x, y), (x, y)];
    assert r[0] == r[1];
  }

  // ------------------------------------------------------------ the apple

  /** `randAppleGen`: the apple's corner lies in [0, 765) by [0, 565). */
  predicate AppleInRange(x: int, y: int)
  {
    0 <= x < DISPLAY_WIDTH - APPLE_THICKNESS && 0 <= y < DISPLAY_HEIGHT - APPLE_THICKNESS
  }

  /** An arbitrary draw in the range of `randAppleGen`. */
  method RandApple() returns (x: int, y: int)
    ensures AppleInRange(x, y)
  {
    x :| 0 <= x < DISPLAY_WIDTH - APPLE_THICKNESS;
    y :| 0 <= y < DISPLAY_HEIGHT - APPLE_THICKNESS;
  }

  /**
   * The apple test of `gameLoop`: an edge of the head strictly inside the
   * apple horizontally, and then the top or else the bottom edge strictly
   * inside it vertically.
   */
  function AppleHit(x: int, y: int, ax: int, ay: int): bool
  {
    if (x > ax && x < ax + APPLE_THICKNESS) || (x + BLOCK_SIZE > ax && x + BLOCK_SIZE < ax + APPLE_THICKNESS) then
      if y > ay && y < ay + APPLE_THICKNESS then true
      else if y + BLOCK_SIZE > ay && y + BLOCK_SIZE < ay + APPLE_THICKNESS then true
      else false
    else false
  }

  /**
   * Because the head is narrower than the apple, the apple test is exactly
   * the strict overlap of the head's square with the apple's.
   */
  lemma AppleHitIsOverlap(x: int, y: int, ax: int, ay: int)
    ensures AppleHit(x, y, ax, ay) <==>
              Overlaps(Rect(x as real, y as real, BLOCK_SIZE as real, BLOCK_SIZE as real),
                       Rect(ax as real, ay as real, APPLE_THICKNESS as real, APPLE_THICKNESS as real))
  {
  }

  // ------------------------------------------------------------ the game loop

  /** The local state of one `gameLoop` call, plus the `direction` global. */
  class SnakeGame {
    var leadX: int
    var leadY: int
    var changeX: int
    var changeY: int
    var appleX: int
    var appleY: int
    var snakeList: seq<Cell>
    var snakeLength: int
    var gameOver: bool
    var gameExit: bool
    var direction: Heading
    /** Every head position so far, oldest first. */
    ghost var trail: seq<Cell>
    /** Apples eaten so far. */
    ghost var eaten: nat

    function Held(): Controls
      reads this`changeX, this`changeY, this`direction, this`gameExit
    {
      Controls((changeX, changeY), direction, gameExit)
    }

    /** The score shown in the corner. */
    function Score(): int
      reads this`snakeLength
    {
      snakeLength - 1
    }

    /**
     * The body is the newest positions the head has visited, in order and
     * no more than the length; the head is the last of them; the length is
     * one more than the apples eaten; velocity and apple are as the keys and
     * `randAppleGen` leave them.
     */
    ghost predicate Valid()
      reads this`snakeLength, this`snakeList, this`trail, this`leadX, this`leadY
      reads this`eaten, this`changeX, this`changeY, this`appleX, this`appleY
    {
      BodyValid() && snakeLength == eaten + 1 && Steady((changeX, changeY)) && AppleInRange(appleX, appleY)
    }

    /** The part of `Valid` about the body. */
    ghost predicate BodyValid()
      reads this`snakeLength, this`snakeList, this`trail, this`leadX, this`leadY
    {
      |snakeList| <= snakeLength && TrailValid()
    }

    /** The body is the newest part of the trail, and the trail ends at the head. */
    ghost predicate TrailValid()
      reads this`snakeList, this`trail, this`leadX, this`leadY
    {
      IsNewest(snakeList, trail) && (trail != [] ==> trail[|trail| - 1] == (leadX, leadY) && snakeList != [])
    }

    /** The displayed score counts the apples eaten. */
    lemma ScoreCountsApples()
      requires Valid()
      ensures Score() == eaten
    {
    }

    /**
     * The start of `gameLoop`: the head in the middle of the screen, still,
     * with an empty body of length one and a fresh apple. `heading` is the
     * `direction` global, which a new game does not reset.
     */
    constructor (heading: Heading)
      ensures Valid()
      ensures leadX == DISPLAY_WIDTH / 2 && leadY == DISPLAY_HEIGHT / 2 && changeX == 0 && changeY == 0
      ensures snakeList == [] && snakeLength == 1 && !gameOver && !gameExit && direction == heading
    {
      direction := heading;
      new;
      Restart();
    }

    /** Back to the start of `gameLoop`, keeping the `direction` global. */
    method Restart()
      modifies this`leadX, this`leadY, this`snakeList, this`snakeLength, this`trail, this`eaten
      modifies this`changeX, this`changeY, this`appleX, this`appleY, this`gameOver, this`gameExit
      ensures Valid()
      ensures leadX == DISPLAY_WIDTH / 2 && leadY == DISPLAY_HEIGHT / 2 && changeX == 0 && changeY == 0
      ensures snakeList == [] && snakeLength == 1 && !gameOver && !gameExit
    {
      var ax, ay := RandApple();
      changeX, changeY, appleX, appleY, gameOver, gameExit := 0, 0, ax, ay, false, false;
      ResetBody();
    }

    /** The head back in the middle, with an empty body of length one. */
    method ResetBody()
      modifies this`leadX, this`leadY, this`snakeList, this`snakeLength, this`trail, this`eaten
      ensures BodyValid() && snakeLength == eaten + 1
      ensures leadX == DISPLAY_WIDTH / 2 && leadY == DISPLAY_HEIGHT / 2 && snakeList == [] && snakeLength == 1
    {
      leadX, leadY := DISPLAY_WIDTH / 2, DISPLAY_HEIGHT / 2;
      snakeList, snakeLength := [], 1;
      trail, eaten := [], 0;
    }

    /**
     * One event of the game-over screen: the close button and Q leave the
     * game, Space starts a new one (keeping the heading); other keys do
     * nothing.
     */
    method OverEvent(ev: Event)
      requires Valid() && gameOver
      modifies this`leadX, this`leadY, this`snakeList, this`snakeLength, this`trail, this`eaten
      modifies this`changeX, this`changeY, this`appleX, this`appleY, this`gameOver, this`gameExit
      ensures Valid()
      ensures ev == QuitEvent || ev == Press(KeyQ) ==> gameExit && !gameOver && unchanged(this`snakeList, this`leadX, this`leadY)
      ensures ev == Press(KeySpace) ==> !gameOver && !gameExit && snakeList == [] && snakeLength == 1
      ensures ev.Press? && ev.key !in {KeyQ, KeySpace} ==> unchanged(this)
    {
      match ev
      case QuitEvent =>
        gameOver, gameExit := false, true;
      case Press(k) =>
        if k == KeyQ {
          gameExit, gameOver := true, false;
        }
        if k == KeySpace {
          Restart();
        }
    }

    /** The event loop of a frame. */
    method ReadFrameEvents(events: seq<Event>)
      requires Steady((changeX, changeY))
      modifies this`changeX, this`changeY, this`direction, this`gameExit
      ensures Held() == ReadEvents(old(Held()), events)
      ensures Steady((changeX, changeY))
      ensures appleX == old(appleX) && appleY == old(appleY) && snakeLength == old(snakeLength) && leadX == old(leadX) && leadY == old(leadY)
    {
      ghost var c0 := Held();
      for i := 0 to |events|
        invariant Held() == ReadEvents(c0, events[..i])
      {
        assert events[..i + 1][..i] == events[..i];
        match events[i]
        case QuitEvent =>
          gameExit := true;
        case Press(k) =>
          if k == KeyLeft {
            direction, changeX, changeY := Left, -BLOCK_SIZE, 0;
          } else if k == KeyRight {
            direction, changeX, changeY := Right, BLOCK_SIZE, 0;
          } else if k == KeyUp {
            direction, changeY, changeX := Up, -BLOCK_SIZE, 0;
          } else if k == KeyDown {
            direction, changeY, changeX := Down, BLOCK_SIZE, 0;
          }
      }
      assert events[..|events|] == events;
      ReadEventsSteady(c0, events);
    }

    /**
     * The bounds check on the old position, the move, and the body update
     * with the self-collision test.
     */
    method Move()
      requires Valid() && !gameOver
      modifies this`leadX, this`leadY, this`snakeList, this`trail, this`gameOver
      ensures leadX == old(leadX) + changeX && leadY == old(leadY) + changeY
      ensures snakeList == Advance(old(snakeList), (leadX, leadY), snakeLength)
      ensures trail == old(trail) + [(leadX, leadY)]
      ensures gameOver <==> OutOfBounds(old(leadX), old(leadY)) || HitsSelf(snakeList)
      ensures appleX == old(appleX) && appleY == old(appleY) && snakeLength == old(snakeLength)
      ensures Valid()
    {
      var over := false;
      if leadX >= DISPLAY_WIDTH || leadX < 0 || leadY >= DISPLAY_HEIGHT || leadY < 0 {
        over := true;
      }
      var head := (leadX + changeX, leadY + changeY);
      var list, hit := Grow(snakeList, head, snakeLength);
      if hit {
        over := true;
      }
      AdvanceKeepsNewest(snakeList, trail, head, snakeLength);
      Install(head, list, over);
    }

    /** Stores the moved head, the new body and the game-over flag. */
    method Install(head: Cell, list: seq<Cell>, over: bool)
      requires Valid()
      requires IsNewest(list, trail + [head]) && 1 <= |list| <= snakeLength && list[|list| - 1] == head
      modifies this`leadX, this`leadY, this`snakeList, this`trail, this`gameOver
      ensures (leadX, leadY) == head && snakeList == list && trail == old(trail) + [head] && gameOver == over
      ensures Valid()
    {
      leadX, leadY, snakeList, trail, gameOver := head.0, head.1, list, trail + [head], over;
    }

    /** The apple test on the new position: a hit lengthens the snake and draws a new apple. */
    method EatApple()
      requires Valid()
      modifies this`appleX, this`appleY, this`snakeLength, this`eaten
      ensures AppleHit(leadX, leadY, old(appleX), old(appleY)) ==> snakeLength == old(snakeLength) + 1
      ensures !AppleHit(leadX, leadY, old(appleX), old(appleY)) ==>
                snakeLength == old(snakeLength) && eaten == old(eaten) && appleX == old(appleX) && appleY == old(appleY)
      ensures Valid()
    {
      if AppleHit(leadX, leadY, appleX, appleY) {
        appleX, appleY := RandApple();
        snakeLength, eaten := snakeLength + 1, eaten + 1;
      }
    }

    /**
     * The moving part of a frame once the events are read: check the bounds,
     * move, update the body, test for self-collision and for the apple.
     */
    method Step()
      requires Valid() && !gameOver
      modifies this`leadX, this`leadY, this`snakeList, this`trail, this`gameOver
      modifies this`appleX, this`appleY, this`snakeLength, this`eaten
      ensures leadX == old(leadX) + changeX && leadY == old(leadY) + changeY
      ensures snakeList == Advance(old(snakeList), (leadX, leadY), old(snakeLength))
      ensures gameOver <==> OutOfBounds(old(leadX), old(leadY)) || HitsSelf(snakeList)
      ensures AppleHit(leadX, leadY, old(appleX), old(appleY)) ==> snakeLength == old(snakeLength) + 1
      ensures !AppleHit(leadX, leadY, old(appleX), old(appleY)) ==>
                snakeLength == old(snakeLength) && appleX == old(appleX) && appleY == old(appleY)
      ensures Valid()
    {
      Move();
      EatApple();
    }

    /**
     * One pass of the `while not gameExit` loop once the game-over screen is
     * left: read the frame's events, then move and test for the apple.
     */
    method Frame(events: seq<Event>)
      requires Valid() && !gameOver
      modifies this
      ensures Held() == ReadEvents(old(Held()), events)
      ensures leadX == old(leadX) + changeX && leadY == old(leadY) + changeY
      ensures snakeList == Advance(old(snakeList), (leadX, leadY), old(snakeLength))
      ensures gameOver <==> OutOfBounds(old(leadX), old(leadY)) || HitsSelf(snakeList)
      ensures AppleHit(leadX, leadY, old(appleX), old(appleY)) ==> snakeLength == old(snakeLength) + 1
      ensures !AppleHit(leadX, leadY, old(appleX), old(appleY)) ==>
                snakeLength == old(snakeLength) && appleX == old(appleX) && appleY == old(appleY)
      ensures Valid()
    {
      ReadFrameEvents(events);
      Step();
    }
  }
}
