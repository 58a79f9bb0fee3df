/** Game state of a one-cell Snake: a head cell on an integer grid and a
    heading. Every update tick moves the head one cell along the heading;
    every arrow-key press turns the heading, except that the snake may not
    reverse onto itself. Rendering, the window and the event source are
    outside this module: events arrive as values. */
module SnakeGame {

  // ---------------------------------------------------------------------
  // Values
  // ---------------------------------------------------------------------

  datatype Option<T> = None | Some(value: T)

  datatype Direction = Up | Down | Left | Right

  /** The keys of the keyboard that the game distinguishes. */
  datatype Key = ArrowUp | ArrowDown | ArrowLeft | ArrowRight | OtherKey

  /** A pressed input button: a keyboard key, or any other device's button
      (mouse, controller), which the game ignores. */
  datatype Button = Keyboard(key: Key) | OtherButton

  datatype ButtonState = Press | Release

  /** The events the host loop hands to the game. */
  datatype Event =
    | RenderEvent
    | UpdateEvent
    | ButtonEvent(button: Button, state: ButtonState)
    | OtherEvent

  /** The whole mutable state of the snake: head cell and heading. */
  datatype SnakeState = SnakeState(x: int, y: int, direction: Direction)

  /** The state a fresh game starts in. */
  const Start := SnakeState(0, 0, Right)

  predicate Horizontal(d: Direction) {
    d == Left || d == Right
  }

  /** The heading that would turn the snake back onto itself. */
  function Opposite(d: Direction): (r: Direction)
    ensures r != d
    ensures Horizontal(r) == Horizontal(d)
  {
    match d
    case Up => Down
    case Down => Up
    case Left => Right
    case Right => Left
  }

  lemma OppositeInvolutive(d: Direction)
    ensures Opposite(Opposite(d)) == d
  {
  }

  /** Grid (Manhattan) distance between the head cells of two states. */
  function Distance(s: SnakeState, t: SnakeState): (n: nat)
    ensures n == 0 <==> s.x == t.x && s.y == t.y
  {
    (if s.x <= t.x then t.x - s.x else s.x - t.x) +
    (if s.y <= t.y then t.y - s.y else s.y - t.y)
  }

  /** The direction an arrow key asks for; None for every other button. */
  function Requested(b: Button): (r: Option<Direction>)
    ensures r.Some? <==> b.Keyboard? && b.key != OtherKey
  {
    match b
    case Keyboard(ArrowUp) => Some(Up)
    case Keyboard(ArrowDown) => Some(Down)
    case Keyboard(ArrowLeft) => Some(Left)
    case Keyboard(ArrowRight) => Some(Right)
    case _ => None
  }

  /** The four arrow keys map one-to-one onto the four directions. */
  lemma RequestedInjective(b1: Button, b2: Button)
    requires Requested(b1).Some? && Requested(b1) == Requested(b2)
    ensures b1 == b2
  {
  }

  // ---------------------------------------------------------------------
  // One step of each kind
  // ---------------------------------------------------------------------

  /** One update tick: the head moves one cell along the heading (x grows
      to the right, y grows downwards). */
  function Step(s: SnakeState): (r: SnakeState)
    ensures r.direction == s.direction
    ensures Distance(s, r) == 1
    ensures Horizontal(s.direction) <==> r.y == s.y
    ensures r.x < s.x <==> s.direction == Left
    ensures r.x > s.x <==> s.direction == Right
    ensures r.y < s.y <==> s.direction == Up
    ensures r.y > s.y <==> s.direction == Down
  {
    match s.direction
    case Left => s.(x := s.x - 1)
    case Right => s.(x := s.x + 1)
    case Up => s.(y := s.y - 1)
    case Down => s.(y := s.y + 1)
  }

  /** The heading after a button press, with the reversal guard. */
  function Turn(last: Direction, b: Button): (r: Direction)
    ensures r != Opposite(last)
    ensures r != last ==> Requested(b) == Some(r)
    ensures Requested(b).Some? && Requested(b).value != Opposite(last) ==> r == Requested(b).value
    ensures Requested(b).None? || Requested(b) == Some(Opposite(last)) ==> r == last
  {
    match b
    case Keyboard(ArrowUp) => if last != Down then Up else last
    case Keyboard(ArrowDown) => if last != Up then Down else last
    case Keyboard(ArrowLeft) => if last != Right then Left else last
    case Keyboard(ArrowRight) => if last != Left then Right else last
    case _ => last
  }

  /** Stepping forward and then forward again with the opposite heading
      brings the head back to where it was. */
  lemma StepUndone(s: SnakeState)
    ensures var t := Step(s); Step(t.(direction := Opposite(t.direction))) == s.(direction := Opposite(s.direction))
  {
  }

  /** Pressing the same button twice leaves the same heading as once. */
  lemma TurnIdempotent(last: Direction, b: Button)
    ensures Turn(Turn(last, b), b) == Turn(last, b)
  {
  }

  /** With one press between two ticks, the head never moves back into the
      cell it came from: the press cannot choose the reversed heading. */
  lemma NoImmediateReversal(s: SnakeState, b: Button)
    ensures var t := Step(s).(direction := Turn(s.direction, b)); Distance(s, Step(t)) != 0
  {
  }

  // ---------------------------------------------------------------------
  // The host loop's dispatch, over a sequence of events
  // ---------------------------------------------------------------------

  /** One event of the host loop: ticks move the snake, button presses
      turn it, and everything else (rendering, releases, other events)
      leaves the state alone. */
  function Dispatch(s: SnakeState, e: Event): (r: SnakeState)
    ensures e.UpdateEvent? ==> r == Step(s)
    ensures !e.UpdateEvent? ==> r.x == s.x && r.y == s.y
    ensures r.direction != s.direction ==> e.ButtonEvent? && e.state == Press && Requested(e.button) == Some(r.direction)
    ensures r.direction != Opposite(s.direction)
    ensures e.ButtonEvent? && e.state == Press ==> r.direction == Turn(s.direction, e.button)
    ensures e.ButtonEvent? && e.state == Release ==> r == s
  {
    match e
    case UpdateEvent => Step(s)
    case ButtonEvent(b, Press) => s.(direction := Turn(s.direction, b))
    case _ => s
  }

  /** The state after the host loop has delivered the events in order. */
  function Replay(s: SnakeState, events: seq<Event>): (r: SnakeState)
    ensures (forall i :: 0 <= i < |events| ==> !events[i].UpdateEvent?) ==> r.x == s.x && r.y == s.y
    ensures (forall i :: 0 <= i < |events| ==> !events[i].ButtonEvent?) ==> r.direction == s.direction
    decreases |events|
  {
    if events == [] then s else Replay(Dispatch(s, events[0]), events[1..])
  }

  /** The guard compares a press with the last accepted heading, not with the
      heading the snake last moved in: two presses between two ticks (a
      perpendicular turn, then the reversed one) bring the head back into
      the cell it came from. */
  lemma DoublePressReverses()
    ensures Replay(Start, [UpdateEvent, ButtonEvent(Keyboard(ArrowUp), Press),
                           ButtonEvent(Keyboard(ArrowLeft), Press), UpdateEvent])
            == SnakeState(0, 0, Left)
  {
  }

  /** The number of update ticks among the events. */
  function Ticks(events: seq<Event>): nat
    decreases |events|
  {
    if events == [] then 0 else (if events[0].UpdateEvent? then 1 else 0) + Ticks(events[1..])
  }

  /** Delivering two batches of events one after the other is delivering
      their concatenation. */
  lemma {:induction false} ReplayAppend(s: SnakeState, a: seq<Event>, b: seq<Event>)
    ensures Replay(s, a + b) == Replay(Replay(s, a), b)
    decreases |a|
  {
    if a == [] {
      assert a + b == b;
    } else {
      assert (a + b)[1..] == a[1..] + b;
      ReplayAppend(Dispatch(s, a[0]), a[1..], b);
    }
  }

  /** After any run of events the head is at most one cell per tick away
      from where it started, and the parity of x + y has flipped once per
      tick (the head alternates between the two colours of a chessboard). */
  lemma {:induction false} ReplayDistance(s: SnakeState, events: seq<Event>)
    ensures Distance(s, Replay(s, events)) <= Ticks(events)
    ensures (Replay(s, events).x + Replay(s, events).y - s.x - s.y - Ticks(events)) % 2 == 0
    decreases |events|
  {
    if events != [] {
      var t := Dispatch(s, events[0]);
      ReplayDistance(t, events[1..]);
    }
  }

  // ---------------------------------------------------------------------
  // Objects
  // ---------------------------------------------------------------------

  /** The snake: one head cell and a heading, updated in place. */
  class Snake {
    var x: int
    var y: int
    var direction: Direction

    function State(): SnakeState
      reads this
    {
      SnakeState(x, y, direction)
    }

    /** The snake a fresh game starts with. */
    constructor ()
      ensures State() == Start
    {
      x, y, direction := 0, 0, Right;
    }

    /** Moves the head one cell along the heading. */
    method Update()
      modifies this
      ensures State() == Step(old(State()))
    {
      match direction
      case Left => x := x - 1;
      case Right => x := x + 1;
      case Up => y := y - 1;
      case Down => y := y + 1;
    }
  }

  /** The game: owns the snake (the graphics handle is not modelled). */
  class Game {
    var snake: Snake

    constructor ()
      ensures fresh(snake)
      ensures snake.State() == Start
    {
      snake := new Snake();
    }

    /** An update tick: delegates to the snake. */
    method Update()
      modifies snake
      ensures snake.State() == Step(old(snake.State()))
    {
      snake.Update();
    }

    /** A button press: turns the snake unless that would reverse it. */
    method Pressed(b: Button)
      modifies snake
      ensures snake.x == old(snake.x) && snake.y == old(snake.y)
      ensures snake.direction == Turn(old(snake.direction), b)
    {
      var lastDirection := snake.direction;
      snake.direction :=
        match b
        case Keyboard(ArrowUp) => if lastDirection != Down then Up else lastDirection
        case Keyboard(ArrowDown) => if lastDirection != Up then Down else lastDirection
        case Keyboard(ArrowLeft) => if lastDirection != Right then Left else lastDirection
        case Keyboard(ArrowRight) => if lastDirection != Left then Right else lastDirection
        case _ => lastDirection;
    }

    /** One pass of the host loop's body: render events draw only, update
        events tick, and only the press (not the release) of a button is
        passed on. */
    method HandleEvent(e: Event)
      modifies snake
      ensures snake.State() == Dispatch(old(snake.State()), e)
    {
      match e
      case RenderEvent =>
      case UpdateEvent => Update();
      case ButtonEvent(b, st) =>
        if st == Press {
          Pressed(b);
        }
      case OtherEvent =>
    }

    /** The host loop over a finite run of events. */
    method Run(events: seq<Event>)
      modifies snake
      ensures snake.State() == Replay(old(snake.State()), events)
    {
      var i := 0;
      while i < |events|
        invariant 0 <= i <= |events|
        invariant snake.State() == Replay(old(snake.State()), events[..i])
      {
        ReplayAppend(old(snake.State()), events[..i], [events[i]]);
        assert events[..i + 1] == events[..i] + [events[i]];
        HandleEvent(events[i]);
        i := i + 1;
      }
      assert events[..i] == events;
    }
  }
}
