# Pong: a verified model of the frame step

This project models the game logic of a small GLUT Pong game (`pong.c`). Two
paddles sit at fixed x-positions on either side of an 800 × 600 window. A ball
bounces between them and off the top and bottom edges. Each side has a score
from 0 to 9. The model covers:

- the game's global state: scores, ball position and velocity, paddle
  heights, which side serves next (`leftStart`), whether the ball is in
  play, and the four held-key flags;
- the serve `resetBall` (and the timer callback `reset`, which only adds a
  redraw request);
- the four keyboard callbacks, which set and clear the held-key flags;
- the per-frame step `fixedUpdate`. It moves each paddle when exactly one
  of its keys is held, clamped to [0, 525]. It then advances the ball and,
  only while the ball is in play, handles three events in this order:
  - a top or bottom wall reflects the ball;
  - a paddle reflects the ball and speeds it up by 1.1; the left paddle
    is checked first;
  - a ball past either side scores a point; a score that reaches 10
    wipes both scores, the ball leaves play and a delayed serve is
    requested;
- the seven-segment table that `printDigit` uses to draw a score.

Layout:

- `keyboard.dfy` (module `Keyboard`): the held-key flags and the four
  callbacks as functions.
- `simulation.dfy` (module `Simulation`): the state as a datatype, the
  constants, and one function per phase of the frame. `Tick` is one
  frame and `ResetBall` is the serve. A `Run` over any sequence of frames,
  serves and key events is the event loop. The game's properties are
  proved as lemmas here.
- `digits.dfy` (module `Digits`): the segments lit for each digit, with a
  decoder that reads the display back.
- `game.dfy` (module `Pong`): class `Game`, whose fields are the program's
  globals. Its methods perform the source's assignments in the source's
  order. Each method is proved equal to the matching function of
  `Simulation`, so every property proved there holds for the class.

Conventions:

- Positions and velocities are `real`; `1.1` is `11/10` and the paddle step
  `600/512*4` is `75/16`. Single-precision rounding is not modelled.
- The y-axis points up, as in the drawing: the "up" keys (`w`, up arrow)
  increase a paddle's y, and a ball with y above 600 has gone through the
  top.
- Scores are `unsigned char`, so `++` is modelled as addition modulo 256.
  From a valid state the wrap is never reached.
- The call `glutTimerFunc(SCORE_DELAY_MS, reset, 0)` is modelled by a counter,
  `resetsScheduled`, which the frame step increments. When that timer fires,
  the effect is a `Serve` event in a run, or a call of `Game.ResetBall`.
- The special-key codes are GLUT's values: `GLUT_KEY_UP` = 101,
  `GLUT_KEY_DOWN` = 103.

In this code, reaching 10 only wipes both scores, and the ball's speed grows
without bound on every paddle hit. Scoring and the paddle
tests look only at the ball's lower-left corner `(ballX, ballY)`. So on the
left a point is scored as soon as that corner passes x = 0, while on the
right it is scored only when the corner passes x = 800, once the whole ball
has left.

## Model

| member | source | states |
|---|---|---|
| Keyboard.KeyPress | pong.c:140-143 | 'w' sets only the up flag and 's' only the down flag. Any other key changes nothing. |
| Keyboard.KeyRelease | pong.c:150-153 | 'w' clears only the up flag and 's' only the down flag. Any other key changes nothing. |
| Keyboard.SpecialKeyPress | pong.c:145-148 | The up arrow sets only the special up flag and the down arrow only the special down flag. Other keys change nothing. |
| Keyboard.SpecialKeyRelease | pong.c:155-158 | The up arrow clears only the special up flag and the down arrow only the special down flag. Other keys change nothing. |
| Keyboard.PressThenRelease | pong.c:140-153 | Pressing a key that was not held, then releasing it, restores all four flags. |
| Keyboard.SpecialPressThenRelease | pong.c:145-158 | The same round trip for the arrow keys. |
| Keyboard.ReleaseThenPress | pong.c:140-153 | Releasing a held 'w' or 's', then pressing it again, restores all four flags. |
| Simulation.Inc | pong.c:54 | `++` on an `unsigned char`: adds one below 255 and wraps 255 to 0. |
| Simulation.MovePaddle | pong.c:161-167 | A paddle stays put unless exactly one of its keys is held. When it moves, it takes one full step if there is room and otherwise stops at the band's end. It never leaves [0, 525] once inside. |
| Simulation.MovePaddles | pong.c:161-174 | The paddle phase changes only the two paddle heights. |
| Simulation.Integrate | pong.c:176-177 | The ball moves by exactly its velocity, and nothing else changes. |
| Simulation.BounceWalls | pong.c:183-189 | A ball beyond the top or bottom edge has its vertical velocity negated and its position moved back by the old velocity. Otherwise nothing changes. |
| Simulation.Deflect | pong.c:192-210 | A paddle hit moves x back by the old horizontal velocity and sets the new horizontal velocity to −1.1 times the old one. The vertical velocity is multiplied by 1.1, and is also reversed (with y moved back) when the ball came in over a paddle end. |
| Simulation.HitsLeftPaddle | pong.c:191 | The left collision test: the ball's corner is in the left half of the window and strictly between the paddle's bottom and top. |
| Simulation.HitsRightPaddle | pong.c:201 | The right collision test: the ball's corner is in the right half of the window and strictly between the paddle's bottom and top. So both tests can never hold at once. |
| Simulation.BouncePaddles | pong.c:191-211 | The right paddle is tested only when the left paddle misses. A ball touching neither paddle is unchanged. |
| Simulation.AddPoint | pong.c:215-217 | A point below 9 adds exactly one. A point at 9 wipes both scores. A score below 10 stays below 10. |
| Simulation.Score | pong.c:214-228 | A ball left of 0 gives a point to the right player. Otherwise, a ball right of 800 gives a point to the left player. Either way the ball leaves play and one reset is requested. Inside the window nothing changes. |
| Simulation.ResetBall | pong.c:65-72 | The serve starts at (400, 600) with vertical velocity −5 and horizontal velocity −5 when `leftStart`, else 5. It flips `leftStart`, puts the ball in play and changes nothing else. |
| Simulation.Tick | pong.c:160-233 | A frame moves each paddle by its own keys and leaves the keys and the next server unchanged. Out of play it is only the paddle move and the ball advance. In play, it then runs walls, paddles and scoring in that order. |
| Simulation.PaddleStepValue | pong.c:34-35 | The paddle step is 75/16 and the top of the band is 525. |
| Simulation.InitialValid | pong.c:54-61 | The initial globals satisfy the invariant, with both paddles centred in the band. The first serve goes left. |
| Simulation.TickMovesPaddles | pong.c:161-174 | In a frame, each paddle moves only according to its own pair of keys, and the keys do not change. |
| Simulation.TickPreservesInv | pong.c:160-233 | A frame keeps both paddles in [0, 525] and both scores in 0..9. |
| Simulation.TickOutOfPlay | pong.c:176-180 | While the ball is out of play, a frame only moves the paddles and advances the ball. Scores, velocities, play state and requested resets are unchanged. |
| Simulation.TickWallBounce | pong.c:176-189 | A wall hit negates the vertical velocity and returns the ball to its start-of-frame height. The horizontal velocity is untouched. The same holds at the end of the frame when no paddle is hit. |
| Simulation.TickPaddleBounce | pong.c:191-211 | A paddle hit returns the ball to its start-of-frame x, with horizontal velocity −1.1 times the old one. The vertical velocity is ±1.1 times its value after the wall phase. The single factor −1.1 on the horizontal velocity shows that exactly one deflection happens. Without a hit, x advances by the horizontal velocity, which is unchanged, and the vertical velocity is its value after the wall phase. |
| Simulation.TickScoring | pong.c:214-228 | A ball ending left of 0 adds exactly one point to the right score, or wipes both at 10. A ball ending right of 800 does the same for the left score. Either way the ball leaves play and one reset is requested. Otherwise nothing about the score changes. |
| Simulation.TickSchedulesReset | pong.c:214-228 | A frame requests a reset exactly when it takes the ball out of play. No frame puts the ball into play. |
| Simulation.ServesAlternate | pong.c:65-72 | Two consecutive serves go in opposite horizontal directions. |
| Simulation.Step | pong.c:140-158 | One callback of the event loop. A key event changes only the flags. No event but a frame moves a paddle, changes a score or requests a reset. No event but a serve changes the next server. |
| Simulation.Run | pong.c:244-251 | Any sequence of callbacks, including scheduled resets firing. The empty sequence changes nothing, and a sequence of key events alone changes only the flags. |
| Simulation.RunAppend | pong.c:244-251 | Running two sequences of callbacks one after the other is the same as running their concatenation. |
| Simulation.StepPreservesInv | pong.c:140-233 | Every frame, serve and key event keeps the invariant. |
| Simulation.RunPreservesInv | pong.c:160-233 | Under any sequence of frames, serves and key events starting from a valid state, paddles stay in [0, 525] and scores in 0..9. |
| Simulation.RunPaddleSpeed | pong.c:161-174 | Over any run, each paddle moves at most one step per frame. |
| Simulation.RunResetsMonotone | pong.c:219-226 | The number of requested resets never decreases. |
| Simulation.RunKeepsServer | pong.c:65-72 | Only a serve changes which side serves next. |
| Simulation.ServesAlternateAcrossRun | pong.c:65-72 | Whatever frames and key events come between two serves, the second goes in the opposite direction to the first. |
| Digits.Segments | pong.c:80-108 | Any value above 9 lights just the two right-hand bars, like 1. |
| Digits.ReadBack | pong.c:80-108 | The lit bars of every digit 0..9 decode back to that digit. |
| Digits.SegmentsDistinct | pong.c:80-108 | No two digits 0..9 light the same bars. |
| Digits.NotableDigits | pong.c:82-108 | 8 lights all seven bars and 1 lights only the two right-hand bars. 9 lights all bars except the bottom and lower-left ones. |
| Pong.Game.constructor | pong.c:54-61 | The fields start as the program's static initialisers, which satisfy the invariant. |
| Pong.Game.ResetBall | pong.c:65-77 | Updates the fields in place exactly as `Simulation.ResetBall` and keeps the invariant. |
| Pong.Game.KeyPress | pong.c:140-143 | Updates the flags in place exactly as `Keyboard.KeyPress`. All other fields are unchanged. |
| Pong.Game.SpecialKeyPress | pong.c:145-148 | Updates the flags in place exactly as `Keyboard.SpecialKeyPress`. All other fields are unchanged. |
| Pong.Game.KeyRelease | pong.c:150-153 | Updates the flags in place exactly as `Keyboard.KeyRelease`. All other fields are unchanged. |
| Pong.Game.SpecialKeyRelease | pong.c:155-158 | Updates the flags in place exactly as `Keyboard.SpecialKeyRelease`. All other fields are unchanged. |
| Pong.Game.FixedUpdate | pong.c:160-233 | The new fields are `Simulation.Tick` of the old ones. It keeps the invariant and requests a reset exactly when the ball leaves play. |
| Pong.Game.MovePaddles | pong.c:161-174 | The paddle phase, in place. It modifies only the two paddle fields. |
| Pong.Game.BounceWalls | pong.c:183-189 | The wall phase, in place. It modifies only the ball's y and vertical velocity. |
| Pong.Game.BouncePaddles | pong.c:191-211 | The paddle-collision phase, in place, left paddle first. |
| Pong.Game.Deflect | pong.c:192-210 | One paddle's collision response, in place. |
| Pong.Game.Score | pong.c:214-228 | The score colliders, in place. They modify only the scores, the play flag and the reset counter. |

## Left out

- Rendering is not modelled: `display`, `reshape`, `glRectf`, the `Xpos`/`Ypos` mapping, the centre-line dash loop and `glutPostRedisplay`. Of `printDigit`, only which bars it draws is modelled.
- Timer scheduling is not modelled. The delays, the self-rescheduling of the frame step and the initial delayed serve in `main` are event-loop plumbing. A requested reset is only counted, and its firing is a `Serve` event or a call of `Game.ResetBall`.
- `main` and window setup are not modelled.
- The unused `int` argument of the timer callbacks and the mouse coordinates of the key callbacks are not modelled.
- Single-precision floating point is modelled as exact reals. Rounding, and the overflow of a velocity that grows by 1.1 on every paddle hit, are not modelled.
- The model does not claim that the ball stays inside the window. The one-step wall correction does not guarantee it, and a fast ball can pass through a paddle between two frames.
- Keyboard.PressThenRelease: states the round trip only when the key was not already held. Releasing a key clears its flag whatever the previous state was, so pressing an already-held key and releasing it leaves the flag clear.
