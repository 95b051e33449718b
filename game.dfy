/**
 * The game's global variables (pong.c:54-61) as the fields of one object,
 * and the callbacks that update them in place: the frame step
 * `fixedUpdate`, the serve `resetBall` and the four keyboard callbacks.
 * Each method performs the source's assignments in the source's order and
 * is proved to agree with the corresponding function of module Simulation,
 * about which the game's properties are proved.
 */
module Pong {
  import opened Keyboard
  import opened Simulation

  class Game {
    var leftScore: uint8
    var rightScore: uint8
    var ballX: real
    var ballY: real
    var leftPaddleY: real
    var rightPaddleY: real
    var ballVelocityX: real
    var ballVelocityY: real
    var leftStart: bool
    var inPlay: bool
    var upButton: bool
    var specialUpButton: bool
    var downButton: bool
    var specialDownButton: bool
    /** How many times the frame step has asked the timer to run `reset` later. */
    var resetsScheduled: nat

    /** The globals as one value. */
    function Snapshot(): State
      reads this
    {
      State(leftScore, rightScore, ballX, ballY, leftPaddleY, rightPaddleY,
            ballVelocityX, ballVelocityY, leftStart, inPlay,
            Held(upButton, downButton, specialUpButton, specialDownButton),
            resetsScheduled)
    }

    /** The static initialisers of pong.c:54-61. */
    constructor ()
      ensures Snapshot() == Initial
      ensures Inv(Snapshot())
    {
      leftScore, rightScore := 0, 0;
      ballX, ballY := -BallDim, -BallDim;
      leftPaddleY := (WindowHeight - PaddleHeight) / 2.0;
      rightPaddleY := (WindowHeight - PaddleHeight) / 2.0;
      ballVelocityX, ballVelocityY := 0.0, 0.0;
      leftStart, inPlay := true, false;
      upButton, specialUpButton, downButton, specialDownButton := false, false, false, false;
      resetsScheduled := 0;
      InitialValid();
    }

    /** `resetBall` (and the timer callback `reset`, which only adds a redraw request). */
    method ResetBall()
      modifies this
      ensures Snapshot() == Simulation.ResetBall(old(Snapshot()))
      ensures Inv(old(Snapshot())) ==> Inv(Snapshot())
    {
      ballX := WindowWidth / 2.0;
      ballY := WindowHeight;
      ballVelocityX := if leftStart then -ServeSpeed else ServeSpeed;
      ballVelocityY := -ServeSpeed;
      leftStart := !leftStart;
      inPlay := true;
    }

    /** `keypress`. */
    method KeyPress(key: char)
      modifies this
      ensures Snapshot() == old(Snapshot()).(keys := Keyboard.KeyPress(old(Snapshot()).keys, key))
    {
      if key == 'w' {
        upButton := true;
      } else if key == 's' {
        downButton := true;
      }
    }

    /** `specialKeypress`. */
    method SpecialKeyPress(key: int)
      modifies this
      ensures Snapshot() == old(Snapshot()).(keys := Keyboard.SpecialKeyPress(old(Snapshot()).keys, key))
    {
      if key == GlutKeyUp {
        specialUpButton := true;
      } else if key == GlutKeyDown {
        specialDownButton := true;
      }
    }

    /** `keyrelease`. */
    method KeyRelease(key: char)
      modifies this
      ensures Snapshot() == old(Snapshot()).(keys := Keyboard.KeyRelease(old(Snapshot()).keys, key))
    {
      if key == 'w' {
        upButton := false;
      } else if key == 's' {
        downButton := false;
      }
    }

    /** `specialKeyrelease`. */
    method SpecialKeyRelease(key: int)
      modifies this
      ensures Snapshot() == old(Snapshot()).(keys := Keyboard.SpecialKeyRelease(old(Snapshot()).keys, key))
    {
      if key == GlutKeyUp {
        specialUpButton := false;
      } else if key == GlutKeyDown {
        specialDownButton := false;
      }
    }

    /**
     * `fixedUpdate` without the redraw request and the rescheduling of the
     * next frame; requesting the delayed `reset` increments `resetsScheduled`.
     */
    method FixedUpdate()
      modifies this
      ensures Snapshot() == Tick(old(Snapshot()))
      ensures Inv(old(Snapshot())) ==> Inv(Snapshot())
      ensures resetsScheduled == old(resetsScheduled) + (if old(inPlay) && !inPlay then 1 else 0)
    {
      ghost var s := Snapshot();
      MovePaddles();
      ballX := ballX + ballVelocityX;
      ballY := ballY + ballVelocityY;
      ghost var moved := Snapshot();
      assert moved == Integrate(Simulation.MovePaddles(s));
      // only calculate collisions if ball is in play
      if inPlay {
        BounceWalls();
        BouncePaddles();
        Score();
      }
      assert Snapshot() == Tick(s);
      if Inv(s) {
        TickPreservesInv(s);
      }
      TickSchedulesReset(s);
    }

    /** The paddle half of `fixedUpdate` (pong.c:161-174). */
    method MovePaddles()
      modifies this`leftPaddleY, this`rightPaddleY
      ensures Snapshot() == Simulation.MovePaddles(old(Snapshot()))
    {
      if downButton != upButton {
        if downButton {
          leftPaddleY := Max(leftPaddleY - PaddleStep, MinPaddleY);
        } else if upButton {
          leftPaddleY := Min(leftPaddleY + PaddleStep, MaxPaddleY);
        }
      }
      if specialDownButton != specialUpButton {
        if specialDownButton {
          rightPaddleY := Max(rightPaddleY - PaddleStep, MinPaddleY);
        } else if specialUpButton {
          rightPaddleY := Min(rightPaddleY + PaddleStep, MaxPaddleY);
        }
      }
    }

    /** The top and bottom collisions of `fixedUpdate` (pong.c:183-189). */
    method BounceWalls()
      modifies this`ballY, this`ballVelocityY
      ensures Snapshot() == Simulation.BounceWalls(old(Snapshot()))
    {
      if ballY > WindowHeight {
        ballVelocityY := -ballVelocityY;
        ballY := ballY + ballVelocityY;
      } else if ballY < 0.0 {
        ballVelocityY := -ballVelocityY;
        ballY := ballY + ballVelocityY;
      }
    }

    /** The paddle collisions of `fixedUpdate` (pong.c:191-211). */
    method BouncePaddles()
      modifies this`ballX, this`ballY, this`ballVelocityX, this`ballVelocityY
      ensures Snapshot() == Simulation.BouncePaddles(old(Snapshot()))
    {
      if HitsLeftPaddle(ballX, ballY, leftPaddleY) {
        Deflect(leftPaddleY);
      } else if HitsRightPaddle(ballX, ballY, rightPaddleY) {
        Deflect(rightPaddleY);
      }
    }

    /** The body shared by the two paddle collisions (pong.c:192-200 and 202-210). */
    method Deflect(paddleY: real)
      modifies this`ballX, this`ballY, this`ballVelocityX, this`ballVelocityY
      ensures Snapshot() == Simulation.Deflect(old(Snapshot()), paddleY)
    {
      ballVelocityX := -ballVelocityX;
      ballX := ballX + ballVelocityX;
      // corner collision
      if ballY - ballVelocityY > paddleY + PaddleHeight || ballY - ballVelocityY < paddleY {
        ballVelocityY := -ballVelocityY;
        ballY := ballY + ballVelocityY;
      }
      ballVelocityX := ballVelocityX * Acceleration;
      ballVelocityY := ballVelocityY * Acceleration;
    }

    /** The score colliders of `fixedUpdate` (pong.c:214-228). */
    method Score()
      modifies this`leftScore, this`rightScore, this`resetsScheduled, this`inPlay
      ensures Snapshot() == Simulation.Score(old(Snapshot()))
    {
      if ballX < 0.0 {
        rightScore := Inc(rightScore);
        if rightScore == WinningScore {
          leftScore, rightScore := 0, 0;
        }
        resetsScheduled := resetsScheduled + 1;
        inPlay := false;
      } else if ballX > WindowWidth {
        leftScore := Inc(leftScore);
        if leftScore == WinningScore {
          leftScore, rightScore := 0, 0;
        }
        resetsScheduled := resetsScheduled + 1;
        inPlay := false;
      }
    }
  }
}
