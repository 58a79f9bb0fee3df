# Snake game state, in Dafny

A model of the game-state logic of a minimal Snake game written in Rust
(`src/main.rs`). The snake is a single head cell `(x, y)` on an integer grid
with a heading (`Up`, `Down`, `Left`, `Right`). A fresh game starts at
`(0, 0)` heading `Right`. Each update tick moves the head one cell along the
heading (x grows to the right, y grows downwards). Each arrow-key press turns
the heading to that key's direction, except that the exact opposite of the
current heading is refused. Every other button is ignored, and only presses
(not releases) reach the game.

The model has two layers in one module, `SnakeGame` (`snake.dfy`):

- values: `SnakeState` (head cell and heading), `Step` (one tick),
  `Turn` (one press with the reversal guard), `Dispatch` (one event of the
  host loop) and `Replay` (a run of events), with the lemmas about them;
- objects: the classes `Snake` (fields `x`, `y`, `direction`, updated in
  place) and `Game` (owns the snake), whose methods are proved against the
  value layer.

The snake is a single cell: there is no body list and nothing grows.

The reversal guard compares a pressed arrow with the last accepted heading,
not with the heading the snake last moved in. One press between two ticks
can never send the head back into the cell it came from, but two presses
can: a perpendicular turn followed by the reversed arrow.

## Model

| member | source | states |
|---|---|---|
| SnakeGame.Opposite | src/main.rs:37-40 | the guards pair Up with Down and Left with Right: the opposite of a heading differs from it and lies on the same axis |
| SnakeGame.OppositeInvolutive | src/main.rs:37-40 | the opposite of the opposite is the heading itself |
| SnakeGame.Requested | src/main.rs:37-41 | exactly the four arrow keys ask for a direction; every other key and every non-keyboard button asks for none |
| SnakeGame.RequestedInjective | src/main.rs:37-40 | two buttons that ask for the same direction are the same arrow key: the four arrows map one-to-one onto the four directions |
| SnakeGame.Step | src/main.rs:74-81 | a tick keeps the heading, moves the head by exactly one cell, changes y only for vertical headings, and decreases x iff Left, increases x iff Right, decreases y iff Up, increases y iff Down |
| SnakeGame.StepUndone | src/main.rs:74-81 | a step followed by a step with the opposite heading returns the head to its cell |
| SnakeGame.Turn | src/main.rs:36-42 | the new heading is never the opposite of the last one; it differs from the last only if it is the direction of the pressed arrow; an arrow whose direction is not opposite (including the current heading) is taken; a non-arrow button or the opposite arrow keeps the last heading |
| SnakeGame.TurnIdempotent | src/main.rs:33-43 | pressing the same button twice gives the same heading as pressing it once |
| SnakeGame.NoImmediateReversal | src/main.rs:33-43 | after a tick, any press and another tick, the head is never back in the cell it started from, because the press cannot choose the reversed heading |
| SnakeGame.Dispatch | src/main.rs:106-118 | an update event is one tick; no other event moves the head; every button press applies `Turn` to the heading, and a release changes nothing; the heading changes only on the press of an arrow key, to that key's direction, and never to the opposite of the old heading |
| SnakeGame.Replay | src/main.rs:105-119 | delivers the events in order, one `Dispatch` per event: a run without update events leaves the head where it was, and a run without button events leaves the heading unchanged |
| SnakeGame.DoublePressReverses | src/main.rs:33-43 | from the start state, a tick, a press of Up, a press of Left and a tick bring the head back to (0, 0) heading Left: the guard checks only the last accepted heading |
| SnakeGame.ReplayAppend | src/main.rs:105-119 | delivering two batches of events in turn equals delivering their concatenation |
| SnakeGame.ReplayDistance | src/main.rs:110-112 | after any run of events the head is at most one cell per update tick from its start, and the parity of x + y has changed once per tick |
| SnakeGame.Snake.constructor | src/main.rs:96-100 | a new snake is at (0, 0) heading Right |
| SnakeGame.Snake.Update | src/main.rs:74-81 | the fields after the update are `Step` of the fields before it |
| SnakeGame.Game.constructor | src/main.rs:94-101 | a new game owns a fresh snake at (0, 0) heading Right |
| SnakeGame.Game.Update | src/main.rs:29-31 | the game's update changes only its snake, exactly as one `Step` |
| SnakeGame.Game.Pressed | src/main.rs:33-43 | a press leaves x and y unchanged and sets the heading to `Turn` of the old heading and the button |
| SnakeGame.Game.HandleEvent | src/main.rs:105-118 | one event changes the snake's state exactly as `Dispatch`: releases and render events change nothing |
| SnakeGame.Game.Run | src/main.rs:105-119 | a run of events changes the snake's state exactly as `Replay` |

## Left out

- `Game::render` and `Snake::render` (src/main.rs:19-27, 61-72): drawing through OpenGL with floating-point colours and pixel coordinates.
- The `gl` graphics handle of `Game` (src/main.rs:14): a foreign resource; `Game` holds only its snake.
- Window creation, the OpenGL version and the tick rate of 7 updates per second (src/main.rs:85-92, 103): host setup.
- The event source (src/main.rs:103-105): the window delivers events until it is closed; the model takes a finite sequence of events as a parameter of `Run`, and events as values in `HandleEvent`.
- SnakeGame.Step: coordinates are unbounded integers; the `i32` overflow of `self.x -= 1` and friends (a panic in debug builds, wrap-around in release builds) is not modelled.
- SnakeGame.Snake.Update: inherits the unbounded coordinates of `Step`; no `i32` overflow.
- Each event is exactly one of render, update, button or other. The loop body tests the render, update and button arguments with three independent checks (src/main.rs:106-118); the model assumes, as the windowing library's event type provides, that one event carries only one of them.
- Buttons are reduced to the four arrow keys, one "other key" and one "other button"; which other key or device was pressed does not matter to the game.
