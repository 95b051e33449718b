/**
 * The state of the game and the pure specification of one simulation frame
 * (`fixedUpdate`, pong.c:160-233) and of a serve (`resetBall`, pong.c:65-72).
 *
 * Coordinates are in window units: x grows to the right, y grows upwards
 * (the drawing maps y to OpenGL's upward axis), so a ball with y above the
 * window height has left through the top and the "up" key increases a
 * paddle's y. Positions and velocities are reals: single-precision rounding
 * is not modelled.
 */
module Simulation {
  import opened Keyboard

  /** `unsigned char`, the type of the two scores. */
  newtype uint8 = x: int | 0 <= x < 256

  // The window and its entities (pong.c:16-37).
  const WindowWidth: real := 800.0
  const WindowHeight: real := 600.0
  const PaddleSpeed: real := 4.0
  const PaddleHeight: real := WindowHeight / 8.0
  const PaddleWidth: real := WindowWidth / 100.0
  const BallDim: real := WindowWidth / 120.0
  const MaxPaddleY: real := WindowHeight - PaddleHeight
  const MinPaddleY: real := 0.0
  const LeftPaddleX: real := 50.0
  const RightPaddleX: real := WindowWidth - LeftPaddleX
  /** The distance a paddle travels in one frame (600/512*4 = 75/16). */
  const PaddleStep: real := WindowHeight / 512.0 * PaddleSpeed
  /** `BALL_ACCELERATION_FACTOR` (1.1). */
  const Acceleration: real := 11.0 / 10.0
  /** Serve speed along each axis (`resetBall`). */
  const ServeSpeed: real := 5.0
  /** The score at which both scores are wiped. */
  const WinningScore: uint8 := 10

  /** All the globals of pong.c:54-61, plus the number of delayed resets requested so far. */
  datatype State = State(
    leftScore: uint8, rightScore: uint8,
    ballX: real, ballY: real,
    leftPaddleY: real, rightPaddleY: real,
    ballVelocityX: real, ballVelocityY: real,
    leftStart: bool, inPlay: bool,
    keys: Held,
    resetsScheduled: nat)

  /** The values the globals are initialised with: ball hidden off-screen, paddles centred. */
  const Initial: State := State(
    0, 0,
    -BallDim, -BallDim,
    (WindowHeight - PaddleHeight) / 2.0, (WindowHeight - PaddleHeight) / 2.0,
    0.0, 0.0,
    true, false,
    NoneHeld,
    0)

  /** The `max` and `min` macros of pong.c:51-52. */
  function Max(a: real, b: real): real { if a > b then a else b }
  function Min(a: real, b: real): real { if a < b then a else b }

  /** `++` on an `unsigned char`. */
  function Inc(x: uint8): (r: uint8)
    ensures x < 255 ==> r as int == x as int + 1
    ensures x == 255 ==> r == 0
  {
    ((x as int + 1) % 256) as uint8
  }

  /** A paddle position inside the band [MIN_PADDLE_Y, MAX_PADDLE_Y]. */
  predicate InBand(y: real) {
    MinPaddleY <= y <= MaxPaddleY
  }

  /** The invariant the game keeps: both paddles inside their band, both scores single digits. */
  predicate Inv(s: State) {
    InBand(s.leftPaddleY) && InBand(s.rightPaddleY) &&
    s.leftScore < WinningScore && s.rightScore < WinningScore
  }

  /**
   * One paddle's move in a frame, given whether its down and up keys are held
   * (pong.c:161-167 for the left paddle, 168-174 for the right one).
   */
  function MovePaddle(y: real, down: bool, up: bool): (r: real)
    ensures down == up ==> r == y
    ensures InBand(y) ==> InBand(r)
    ensures down && !up ==> r >= MinPaddleY && (y >= MinPaddleY ==> r <= y && y - r <= PaddleStep)
    ensures down && !up && y - PaddleStep >= MinPaddleY ==> r == y - PaddleStep
    ensures down && !up && y - PaddleStep < MinPaddleY ==> r == MinPaddleY
    ensures up && !down ==> r <= MaxPaddleY && (y <= MaxPaddleY ==> r >= y && r - y <= PaddleStep)
    ensures up && !down && y + PaddleStep <= MaxPaddleY ==> r == y + PaddleStep
    ensures up && !down && y + PaddleStep > MaxPaddleY ==> r == MaxPaddleY
  {
    if down != up then
      if down then Max(y - PaddleStep, MinPaddleY)
      else Min(y + PaddleStep, MaxPaddleY)
    else y
  }

  /** Both paddles move according to their keys; nothing else changes. */
  function MovePaddles(s: State): (r: State)
    ensures r == s.(leftPaddleY := r.leftPaddleY, rightPaddleY := r.rightPaddleY)
  {
    s.(leftPaddleY := MovePaddle(s.leftPaddleY, s.keys.down, s.keys.up),
       rightPaddleY := MovePaddle(s.rightPaddleY, s.keys.specialDown, s.keys.specialUp))
  }

  /** The ball advances by its velocity (pong.c:176-177). */
  function Integrate(s: State): (r: State)
    ensures r.ballX - s.ballX == s.ballVelocityX && r.ballY - s.ballY == s.ballVelocityY
    ensures r == s.(ballX := r.ballX, ballY := r.ballY)
  {
    s.(ballX := s.ballX + s.ballVelocityX, ballY := s.ballY + s.ballVelocityY)
  }

  /** The ball is beyond the top or the bottom edge of the window. */
  predicate OutsideVertically(y: real) {
    y > WindowHeight || y < 0.0
  }

  /**
   * Top and bottom walls (pong.c:183-189): a ball beyond either edge has its
   * vertical velocity reversed and is moved back by the old velocity.
   */
  function BounceWalls(s: State): (r: State)
    ensures OutsideVertically(s.ballY) ==>
      r.ballVelocityY == -s.ballVelocityY && r.ballY + s.ballVelocityY == s.ballY
    ensures !OutsideVertically(s.ballY) ==> r == s
    ensures r == s.(ballY := r.ballY, ballVelocityY := r.ballVelocityY)
  {
    if s.ballY > WindowHeight then
      s.(ballVelocityY := -s.ballVelocityY, ballY := s.ballY + -s.ballVelocityY)
    else if s.ballY < 0.0 then
      s.(ballVelocityY := -s.ballVelocityY, ballY := s.ballY + -s.ballVelocityY)
    else s
  }

  /** The ball point lies strictly inside the left paddle's rectangle (pong.c:191). */
  predicate HitsLeftPaddle(x: real, y: real, paddleY: real)
    ensures HitsLeftPaddle(x, y, paddleY) ==> 0.0 < x < WindowWidth / 2.0 && paddleY < y < paddleY + PaddleHeight
  {
    x < LeftPaddleX && x > LeftPaddleX - PaddleWidth && y > paddleY && y < paddleY + PaddleHeight
  }

  /** The ball point lies strictly inside the right paddle's rectangle (pong.c:201). */
  predicate HitsRightPaddle(x: real, y: real, paddleY: real)
    ensures HitsRightPaddle(x, y, paddleY) ==> WindowWidth / 2.0 < x < WindowWidth && paddleY < y < paddleY + PaddleHeight
  {
    x > RightPaddleX && x < RightPaddleX + PaddleWidth && y > paddleY && y < paddleY + PaddleHeight
  }

  /**
   * The reaction to a paddle at height `paddleY` (pong.c:192-200, 202-210):
   * the horizontal velocity is reversed and the ball moved back by it; if the
   * ball came in over the paddle's top or bottom end (the "corner" case) the
   * vertical velocity is reversed too and the ball moved back vertically;
   * finally both velocity components grow by the acceleration factor.
   */
  function Deflect(s: State, paddleY: real): (r: State)
    ensures r.ballX + s.ballVelocityX == s.ballX
    ensures r.ballVelocityX == -s.ballVelocityX * Acceleration
    ensures var corner := s.ballY - s.ballVelocityY > paddleY + PaddleHeight || s.ballY - s.ballVelocityY < paddleY;
      if corner then r.ballVelocityY == -s.ballVelocityY * Acceleration && r.ballY + s.ballVelocityY == s.ballY
      else r.ballVelocityY == s.ballVelocityY * Acceleration && r.ballY == s.ballY
    ensures r == s.(ballX := r.ballX, ballY := r.ballY, ballVelocityX := r.ballVelocityX, ballVelocityY := r.ballVelocityY)
  {
    var vx := -s.ballVelocityX;
    var x := s.ballX + vx;
    var corner := s.ballY - s.ballVelocityY > paddleY + PaddleHeight || s.ballY - s.ballVelocityY < paddleY;
    var vy := if corner then -s.ballVelocityY else s.ballVelocityY;
    var y := if corner then s.ballY + vy else s.ballY;
    s.(ballX := x, ballY := y, ballVelocityX := vx * Acceleration, ballVelocityY := vy * Acceleration)
  }

  /** Paddle collisions (pong.c:191-211): the left paddle is tried first, the right one only if it missed. */
  function BouncePaddles(s: State): (r: State)
    ensures HitsLeftPaddle(s.ballX, s.ballY, s.leftPaddleY) ==> r == Deflect(s, s.leftPaddleY)
    ensures !HitsLeftPaddle(s.ballX, s.ballY, s.leftPaddleY) && HitsRightPaddle(s.ballX, s.ballY, s.rightPaddleY) ==>
      r == Deflect(s, s.rightPaddleY)
    ensures !HitsLeftPaddle(s.ballX, s.ballY, s.leftPaddleY) && !HitsRightPaddle(s.ballX, s.ballY, s.rightPaddleY) ==> r == s
  {
    if HitsLeftPaddle(s.ballX, s.ballY, s.leftPaddleY) then Deflect(s, s.leftPaddleY)
    else if HitsRightPaddle(s.ballX, s.ballY, s.rightPaddleY) then Deflect(s, s.rightPaddleY)
    else s
  }

  /** A scorer's `++` followed by the wipe of both scores when it reaches 10. */
  function AddPoint(scorer: uint8, other: uint8): (r: (uint8, uint8))
    ensures scorer < 9 ==> r == (scorer + 1, other)
    ensures scorer == 9 ==> r == (0, 0)
    ensures scorer < WinningScore ==> r.0 < WinningScore && (r.1 == other || r.1 == 0)
  {
    var n := Inc(scorer);
    if n == WinningScore then (0, 0) else (n, other)
  }

  /**
   * Score colliders (pong.c:214-228): a ball left of x = 0 is a point for the
   * right player, otherwise one right of the window width a point for the
   * left player; either way the ball leaves play and one delayed reset is
   * requested.
   */
  function Score(s: State): (r: State)
    ensures s.ballX < 0.0 ==>
      (r.rightScore, r.leftScore) == AddPoint(s.rightScore, s.leftScore) &&
      !r.inPlay && r.resetsScheduled == s.resetsScheduled + 1
    ensures !(s.ballX < 0.0) && s.ballX > WindowWidth ==>
      (r.leftScore, r.rightScore) == AddPoint(s.leftScore, s.rightScore) &&
      !r.inPlay && r.resetsScheduled == s.resetsScheduled + 1
    ensures 0.0 <= s.ballX <= WindowWidth ==> r == s
    ensures r == s.(leftScore := r.leftScore, rightScore := r.rightScore,
                    inPlay := r.inPlay, resetsScheduled := r.resetsScheduled)
  {
    if s.ballX < 0.0 then
      var (right, left) := AddPoint(s.rightScore, s.leftScore);
      s.(rightScore := right, leftScore := left, resetsScheduled := s.resetsScheduled + 1, inPlay := false)
    else if s.ballX > WindowWidth then
      var (left, right) := AddPoint(s.leftScore, s.rightScore);
      s.(leftScore := left, rightScore := right, resetsScheduled := s.resetsScheduled + 1, inPlay := false)
    else s
  }

  /**
   * One frame of `fixedUpdate`: move the paddles, advance the ball and, only
   * while the ball is in play, resolve walls, paddles and scoring in that order.
   */
  function Tick(s: State): (r: State)
    ensures r.keys == s.keys && r.leftStart == s.leftStart
    ensures r.leftPaddleY == MovePaddle(s.leftPaddleY, s.keys.down, s.keys.up)
    ensures r.rightPaddleY == MovePaddle(s.rightPaddleY, s.keys.specialDown, s.keys.specialUp)
    ensures !s.inPlay ==> r == Integrate(MovePaddles(s))
    ensures s.inPlay ==> r == Score(BouncePaddles(BounceWalls(Integrate(MovePaddles(s)))))
  {
    var moved := Integrate(MovePaddles(s));
    if moved.inPlay then Score(BouncePaddles(BounceWalls(moved))) else moved
  }

  /** `resetBall`: serve from the middle of the top edge, alternating the horizontal direction. */
  function ResetBall(s: State): (r: State)
    ensures r.ballX == WindowWidth / 2.0 && r.ballY == WindowHeight
    ensures r.ballVelocityY == -ServeSpeed
    ensures r.ballVelocityX == if s.leftStart then -ServeSpeed else ServeSpeed
    ensures r.leftStart == !s.leftStart && r.inPlay
    ensures r.leftScore == s.leftScore && r.rightScore == s.rightScore
    ensures r.leftPaddleY == s.leftPaddleY && r.rightPaddleY == s.rightPaddleY
    ensures r.keys == s.keys && r.resetsScheduled == s.resetsScheduled
  {
    s.(ballX := WindowWidth / 2.0, ballY := WindowHeight,
       ballVelocityX := if s.leftStart then -ServeSpeed else ServeSpeed,
       ballVelocityY := -ServeSpeed,
       leftStart := !s.leftStart, inPlay := true)
  }

  // ---------------------------------------------------------------------
  // Properties of one frame

  /** The paddle step is 75/16 window units. */
  lemma PaddleStepValue()
    ensures PaddleStep == 75.0 / 16.0 && MaxPaddleY == 525.0
  {
  }

  /** The initial state satisfies the invariant, with both paddles centred; the first serve goes left. */
  lemma InitialValid()
    ensures Inv(Initial)
    ensures Initial.leftPaddleY == Initial.rightPaddleY == (MinPaddleY + MaxPaddleY) / 2.0
    ensures ResetBall(Initial).ballVelocityX == -ServeSpeed
  {
  }

  /**
   * A paddle moves only when exactly one of its two keys is held, and then by
   * one step towards the held key's side, stopping at the band's end.
   */
  lemma TickMovesPaddles(s: State)
    ensures var t := Tick(s);
      t.leftPaddleY == MovePaddle(s.leftPaddleY, s.keys.down, s.keys.up) &&
      t.rightPaddleY == MovePaddle(s.rightPaddleY, s.keys.specialDown, s.keys.specialUp)
    ensures s.keys.down == s.keys.up ==> Tick(s).leftPaddleY == s.leftPaddleY
    ensures s.keys.specialDown == s.keys.specialUp ==> Tick(s).rightPaddleY == s.rightPaddleY
    ensures Tick(s).keys == s.keys
  {
  }

  /** A frame keeps both paddles inside the band and both scores below 10. */
  lemma TickPreservesInv(s: State)
    requires Inv(s)
    ensures Inv(Tick(s))
  {
  }

  /** While the ball is out of play a frame only moves the paddles and integrates the ball. */
  lemma TickOutOfPlay(s: State)
    requires !s.inPlay
    ensures Tick(s) == Integrate(MovePaddles(s))
    ensures var t := Tick(s);
      t.ballX == s.ballX + s.ballVelocityX && t.ballY == s.ballY + s.ballVelocityY &&
      t.ballVelocityX == s.ballVelocityX && t.ballVelocityY == s.ballVelocityY &&
      t.leftScore == s.leftScore && t.rightScore == s.rightScore &&
      !t.inPlay && t.leftStart == s.leftStart && t.resetsScheduled == s.resetsScheduled
  {
  }

  /**
   * A ball that crosses the top or bottom edge and misses both paddles comes
   * back to its start-of-frame height with its vertical velocity negated and
   * its horizontal velocity untouched.
   */
  lemma TickWallBounce(s: State)
    requires s.inPlay
    requires OutsideVertically(s.ballY + s.ballVelocityY)
    ensures var w := BounceWalls(Integrate(MovePaddles(s)));
      w.ballY == s.ballY && w.ballVelocityY == -s.ballVelocityY && w.ballVelocityX == s.ballVelocityX
    ensures var w := BounceWalls(Integrate(MovePaddles(s)));
      !HitsLeftPaddle(w.ballX, w.ballY, w.leftPaddleY) && !HitsRightPaddle(w.ballX, w.ballY, w.rightPaddleY) ==>
      Tick(s).ballY == s.ballY && Tick(s).ballVelocityY == -s.ballVelocityY &&
      Tick(s).ballVelocityX == s.ballVelocityX
  {
  }

  /**
   * A paddle hit sends the ball back to its start-of-frame x, reverses the
   * horizontal velocity and multiplies both components by 1.1; only one
   * paddle reacts in a frame, the left one when both would.
   */
  lemma TickPaddleBounce(s: State)
    requires s.inPlay
    ensures var w := BounceWalls(Integrate(MovePaddles(s)));
      HitsLeftPaddle(w.ballX, w.ballY, w.leftPaddleY) || HitsRightPaddle(w.ballX, w.ballY, w.rightPaddleY) ==>
      Tick(s).ballX == s.ballX &&
      Tick(s).ballVelocityX == -s.ballVelocityX * Acceleration &&
      (Tick(s).ballVelocityY == w.ballVelocityY * Acceleration ||
       Tick(s).ballVelocityY == -w.ballVelocityY * Acceleration)
    ensures var w := BounceWalls(Integrate(MovePaddles(s)));
      !HitsLeftPaddle(w.ballX, w.ballY, w.leftPaddleY) && !HitsRightPaddle(w.ballX, w.ballY, w.rightPaddleY) ==>
      Tick(s).ballX == s.ballX + s.ballVelocityX && Tick(s).ballVelocityX == s.ballVelocityX &&
      Tick(s).ballVelocityY == w.ballVelocityY
  {
  }

  /**
   * Scoring in a frame that starts in play: a ball that ends left of x = 0
   * gives the right player exactly one point, otherwise one that ends right of
   * the window gives the left player exactly one point, with both wiped when
   * the point would make 10; the ball leaves play and one reset is requested.
   * Otherwise scores, play and requested resets are unchanged.
   */
  lemma TickScoring(s: State)
    requires s.inPlay && s.leftScore < WinningScore && s.rightScore < WinningScore
    ensures var t := Tick(s);
      t.ballX < 0.0 ==>
        !t.inPlay && t.resetsScheduled == s.resetsScheduled + 1 &&
        if s.rightScore == 9 then t.leftScore == 0 && t.rightScore == 0
        else t.rightScore == s.rightScore + 1 && t.leftScore == s.leftScore
    ensures var t := Tick(s);
      t.ballX > WindowWidth ==>
        !t.inPlay && t.resetsScheduled == s.resetsScheduled + 1 &&
        if s.leftScore == 9 then t.leftScore == 0 && t.rightScore == 0
        else t.leftScore == s.leftScore + 1 && t.rightScore == s.rightScore
    ensures var t := Tick(s);
      0.0 <= t.ballX <= WindowWidth ==>
        t.inPlay && t.resetsScheduled == s.resetsScheduled &&
        t.leftScore == s.leftScore && t.rightScore == s.rightScore
  {
  }

  /** A delayed reset is requested in exactly the frames that take the ball out of play. */
  lemma TickSchedulesReset(s: State)
    ensures Tick(s).inPlay ==> s.inPlay
    ensures Tick(s).resetsScheduled == s.resetsScheduled + (if s.inPlay && !Tick(s).inPlay then 1 else 0)
  {
  }

  /** Two consecutive serves go in opposite horizontal directions, and the server alternates. */
  lemma ServesAlternate(s: State)
    ensures ResetBall(ResetBall(s)).ballVelocityX == -ResetBall(s).ballVelocityX
    ensures ResetBall(ResetBall(s)).leftStart == s.leftStart
  {
  }

  // ---------------------------------------------------------------------
  // Runs: any interleaving of frames, serves and key events

  /**
   * What the event loop can do to the game: run a frame, fire a scheduled
   * reset (the serve), or deliver one of the four keyboard callbacks.
   */
  datatype Event =
    | Frame
    | Serve
    | Press(key: char)
    | Release(key: char)
    | SpecialPress(code: int)
    | SpecialRelease(code: int)

  function Step(s: State, e: Event): (r: State)
    ensures !e.Frame? && !e.Serve? ==> r == s.(keys := r.keys)
    ensures !e.Frame? ==>
      r.leftPaddleY == s.leftPaddleY && r.rightPaddleY == s.rightPaddleY &&
      r.leftScore == s.leftScore && r.rightScore == s.rightScore && r.resetsScheduled == s.resetsScheduled
    ensures !e.Serve? ==> r.leftStart == s.leftStart
  {
    match e
    case Frame => Tick(s)
    case Serve => ResetBall(s)
    case Press(k) => s.(keys := KeyPress(s.keys, k))
    case Release(k) => s.(keys := KeyRelease(s.keys, k))
    case SpecialPress(k) => s.(keys := SpecialKeyPress(s.keys, k))
    case SpecialRelease(k) => s.(keys := SpecialKeyRelease(s.keys, k))
  }

  function Run(s: State, events: seq<Event>): (r: State)
    ensures events == [] ==> r == s
    ensures OnlyKeys(events) ==> r == s.(keys := r.keys)
    decreases |events|
  {
    if events == [] then s else Run(Step(s, events[0]), events[1..])
  }

  /** The events are all keyboard callbacks: no frame and no serve. */
  predicate OnlyKeys(events: seq<Event>) {
    forall i :: 0 <= i < |events| ==> !events[i].Frame? && !events[i].Serve?
  }

  /** Running two sequences of events one after the other is running their concatenation. */
  lemma {:induction false} RunAppend(s: State, first: seq<Event>, second: seq<Event>)
    ensures Run(s, first + second) == Run(Run(s, first), second)
    decreases |first|
  {
    if first == [] {
      assert first + second == second;
    } else {
      assert (first + second)[0] == first[0];
      assert (first + second)[1..] == first[1..] + second;
      RunAppend(Step(s, first[0]), first[1..], second);
    }
  }

  /** The number of frames in a sequence of events. */
  function Frames(events: seq<Event>): nat
    decreases |events|
  {
    if events == [] then 0 else (if events[0].Frame? then 1 else 0) + Frames(events[1..])
  }

  /** Every event keeps the invariant. */
  lemma StepPreservesInv(s: State, e: Event)
    requires Inv(s)
    ensures Inv(Step(s, e))
  {
    if e.Frame? {
      TickPreservesInv(s);
    }
  }

  /**
   * Under any sequence of frames, serves and key events, a game that starts
   * valid (in particular the initial one) keeps both paddles inside
   * [MIN_PADDLE_Y, MAX_PADDLE_Y] and both scores in 0..9.
   */
  lemma {:induction false} RunPreservesInv(s: State, events: seq<Event>)
    requires Inv(s)
    ensures Inv(Run(s, events))
    decreases |events|
  {
    if events != [] {
      StepPreservesInv(s, events[0]);
      RunPreservesInv(Step(s, events[0]), events[1..]);
    }
  }

  /** Each paddle travels at most one step per frame, whatever the keys do in between. */
  lemma {:induction false} RunPaddleSpeed(s: State, events: seq<Event>)
    requires Inv(s)
    ensures var t := Run(s, events); var bound := Frames(events) as real * PaddleStep;
      -bound <= t.leftPaddleY - s.leftPaddleY <= bound &&
      -bound <= t.rightPaddleY - s.rightPaddleY <= bound
    decreases |events|
  {
    if events != [] {
      var s' := Step(s, events[0]);
      StepPreservesInv(s, events[0]);
      RunPaddleSpeed(s', events[1..]);
      var n := Frames(events[1..]) as real;
      PaddleStepValue();
      if events[0].Frame? {
        TickMovesPaddles(s);
        assert Frames(events) as real * PaddleStep == n * PaddleStep + PaddleStep;
      } else {
        assert s'.leftPaddleY == s.leftPaddleY && s'.rightPaddleY == s.rightPaddleY;
        assert Frames(events) as real == n;
      }
    }
  }

  /** The count of requested resets never goes down. */
  lemma {:induction false} RunResetsMonotone(s: State, events: seq<Event>)
    ensures Run(s, events).resetsScheduled >= s.resetsScheduled
    decreases |events|
  {
    if events != [] {
      if events[0].Frame? {
        TickSchedulesReset(s);
      }
      RunResetsMonotone(Step(s, events[0]), events[1..]);
    }
  }

  /** No event other than a serve changes which side serves next. */
  lemma {:induction false} RunKeepsServer(s: State, events: seq<Event>)
    requires forall i :: 0 <= i < |events| ==> !events[i].Serve?
    ensures Run(s, events).leftStart == s.leftStart
    decreases |events|
  {
    if events != [] {
      RunKeepsServer(Step(s, events[0]), events[1..]);
    }
  }

  /**
   * Whatever frames and key events happen between two serves, the second
   * serve goes in the opposite horizontal direction to the first.
   */
  lemma ServesAlternateAcrossRun(s: State, between: seq<Event>)
    requires forall i :: 0 <= i < |between| ==> !between[i].Serve?
    ensures ResetBall(Run(ResetBall(s), between)).ballVelocityX == -ResetBall(s).ballVelocityX
  {
    RunKeepsServer(ResetBall(s), between);
  }
}
