/** The round: one snake, one food, the score, and the tick that drives them
    (`MyGame` and its event handler). */
module Game {
  import opened Wrappers
  import opened Constants
  import opened Grid
  import opened Things

  /** Rust's 16-bit unsigned integer: the score is a `u16`. */
  newtype u16 = x: int | 0 <= x < 0x1_0000

  /** The state of a round as a value: what `MyGame` holds, without the clock. */
  datatype GameState = GameState(
    head: Coordinate,
    tail: seq<TailPart>,
    direction: Direction,
    newDirection: Option<Direction>,
    food: Coordinate,
    score: u16)

  /** The state `MyGame::new` builds. */
  function Initial(): (g: GameState) {
    GameState(Coordinate(10, 10), [TailPart(Coordinate(10, 10))], Right, None, Coordinate(20, 10), 0)
  }

  /** The effect of `Snake::update` on the round. */
  function AfterMove(g: GameState): (r: GameState)
    requires CanStep(g.head, g.direction)
  {
    g.(head := Step(g.head, g.direction))
  }

  /** The direction `turn` leaves: the requested one unless it reverses `dir`. */
  function Turned(dir: Direction, requested: Option<Direction>): (r: Direction)
    ensures r != Inverse(dir)
    ensures r == dir || requested == Some(r)
    ensures requested.Some? && requested.value != Inverse(dir) ==> r == requested.value
  {
    match requested
    case Some(d) => if d != Inverse(dir) then d else dir
    case None => dir
  }

  /** The effect of `MyGame::turn` on the round. */
  function AfterTurn(g: GameState): (r: GameState) {
    g.(direction := Turned(g.direction, g.newDirection))
  }

  /** The effect of `MyGame::collision`; `pick` is the cell the random source
      gives `Food::new_location` when the food is eaten. */
  function AfterCollision(g: GameState, pick: Coordinate): (r: GameState) {
    if g.head == g.food then
      g.(food := pick, tail := g.tail + [TailPart(g.head)])
    else
      g.(tail := (g.tail + [TailPart(g.head)])[1..])
  }

  /** One tick of `EventHandler::update`: move, then turn, then collision. */
  function AfterTick(g: GameState, pick: Coordinate): (r: GameState)
    requires CanStep(g.head, g.direction)
  {
    AfterCollision(AfterTurn(AfterMove(g)), pick)
  }

  /** The tick eats the food: the moved head lands on it. */
  predicate Eats(g: GameState)
    requires CanStep(g.head, g.direction)
  {
    Step(g.head, g.direction) == g.food
  }

  /** The effect of `key_down_event`. */
  function AfterKeyDown(g: GameState, k: KeyCode): (r: GameState) {
    g.(newDirection := SetNewDirection(k))
  }

  /** The turn adopts the requested direction exactly when it is not a
      reversal; otherwise the direction stays. */
  lemma TurnAdoptsUnlessReversal(dir: Direction, requested: Option<Direction>, d: Direction)
    ensures Turned(dir, requested) == d && d != dir <==>
            requested == Some(d) && d != Inverse(dir) && d != dir
    ensures requested == None ==> Turned(dir, requested) == dir
    ensures requested == Some(Inverse(dir)) ==> Turned(dir, requested) == dir
  {
  }

  /** Eating: the tail grows by exactly one part, the new back part is the
      head, the earlier parts are kept, and the food moves to the pick. */
  lemma CollisionWhenEating(g: GameState, pick: Coordinate)
    requires g.head == g.food
    ensures var r := AfterCollision(g, pick);
      && |r.tail| == |g.tail| + 1
      && r.tail[|g.tail|] == TailPart(g.head)
      && r.tail[..|g.tail|] == g.tail
      && r.food == pick
      && r.head == g.head && r.direction == g.direction
      && r.newDirection == g.newDirection && r.score == g.score
  {
  }

  /** Not eating: the tail keeps its length, loses its front part and gains
      the head at the back; the food stays. */
  lemma CollisionWhenSliding(g: GameState, pick: Coordinate)
    requires g.head != g.food
    ensures var r := AfterCollision(g, pick);
      && |r.tail| == |g.tail|
      && (|g.tail| > 0 ==> r.tail == g.tail[1..] + [TailPart(g.head)])
      && (|g.tail| == 0 ==> r.tail == [])
      && r.food == g.food
      && r.head == g.head && r.direction == g.direction
      && r.newDirection == g.newDirection && r.score == g.score
  {
  }

  /** A tick moves the head along the direction held BEFORE the tick (the
      turn comes after the move), adopts the turn for the next tick, keeps
      the pending request and the score, and grows the tail exactly when
      the food is eaten. */
  lemma TickFacts(g: GameState, pick: Coordinate)
    requires CanStep(g.head, g.direction)
    ensures var r := AfterTick(g, pick);
      && r.head == Step(g.head, g.direction)
      && r.direction == Turned(g.direction, g.newDirection)
      && r.newDirection == g.newDirection
      && r.score == g.score
      && |r.tail| == |g.tail| + (if Eats(g) then 1 else 0)
      && (|r.tail| > 0 ==> r.tail[|r.tail| - 1] == TailPart(r.head))
      && (Eats(g) ==> r.food == pick)
      && (!Eats(g) ==> r.food == g.food)
  {
    var m := AfterTurn(AfterMove(g));
    if Eats(g) {
      CollisionWhenEating(m, pick);
    } else {
      CollisionWhenSliding(m, pick);
    }
  }

  /** A key press before a tick does not change that tick's move: the
      requested direction is adopted after the move, and a legal request
      is the direction of the next tick's move. */
  lemma KeyThenTick(g: GameState, k: KeyCode, pick: Coordinate)
    requires CanStep(g.head, g.direction)
    ensures var r := AfterTick(AfterKeyDown(g, k), pick);
      && r.head == Step(g.head, g.direction)
      && r.newDirection == SetNewDirection(k)
      && (SetNewDirection(k).Some? && SetNewDirection(k).value != Inverse(g.direction) ==>
            r.direction == SetNewDirection(k).value)
      && (SetNewDirection(k) == Some(Inverse(g.direction)) || k.Other? ==>
            r.direction == g.direction)
  {
    TickFacts(AfterKeyDown(g, k), pick);
  }

  /** Every key press overwrites the pending request; an unbound key clears it. */
  lemma KeyDownOverwrites(g: GameState, k: KeyCode)
    ensures var r := AfterKeyDown(g, k);
      && (k.Other? ==> r.newDirection == None)
      && (forall d :: k == KeyFor(d) ==> r.newDirection == Some(d))
      && r.head == g.head && r.tail == g.tail && r.direction == g.direction
      && r.food == g.food && r.score == g.score
  {
  }

  /** The shape every reachable round has: a non-empty tail whose back part
      is the head, whose consecutive parts share a side, and food on the field. */
  ghost predicate Trail(g: GameState) {
    && |g.tail| >= 1
    && g.tail[|g.tail| - 1].coordinate == g.head
    && (forall i :: 0 <= i < |g.tail| - 1 ==> Adjacent(g.tail[i].coordinate, g.tail[i + 1].coordinate))
    && InGrid(g.food)
  }

  lemma InitialTrail()
    ensures Trail(Initial())
  {
  }

  /** A tick keeps the shape of the snake, whatever cell the random source picks. */
  lemma TickKeepsTrail(g: GameState, pick: Cell)
    requires Trail(g) && CanStep(g.head, g.direction)
    ensures Trail(AfterTick(g, pick))
  {
    // The new back part is the moved head, which shares a side with the old back part.
    assert Adjacent(g.tail[|g.tail| - 1].coordinate, Step(g.head, g.direction));
  }

  /** An input the round reacts to: a key press, or a tick together with the
      cell the random source would give the food if it is eaten. */
  datatype Event = KeyDown(key: KeyCode) | Tick(pick: Cell)

  /** The round after a sequence of events. None stands for the panic the
      move's i16 arithmetic would raise in a debug build (the drawing code,
      not modelled, overflows earlier). */
  function Run(g: GameState, events: seq<Event>): (r: Option<GameState>)
    decreases |events|
  {
    if events == [] then Some(g)
    else match events[0]
      case KeyDown(k) => Run(AfterKeyDown(g, k), events[1..])
      case Tick(pick) =>
        if CanStep(g.head, g.direction) then Run(AfterTick(g, pick), events[1..]) else None
  }

  /** Every run keeps the shape of the snake and never changes the score. */
  lemma {:induction false} RunKeepsTrail(g: GameState, events: seq<Event>)
    requires Trail(g)
    ensures Run(g, events).Some? ==> Trail(Run(g, events).value) && Run(g, events).value.score == g.score
    decreases |events|
  {
    if events != [] {
      match events[0]
      case KeyDown(k) =>
        RunKeepsTrail(AfterKeyDown(g, k), events[1..]);
      case Tick(pick) =>
        if CanStep(g.head, g.direction) {
          TickKeepsTrail(g, pick);
          TickFacts(g, pick);
          RunKeepsTrail(AfterTick(g, pick), events[1..]);
        }
    }
  }

  /** From the start of a round, after any number of events the tail is
      non-empty, its back part is the head, the food is on the field and
      the score is still 0. */
  lemma RunFromStart(events: seq<Event>)
    ensures Run(Initial(), events).Some? ==>
      var g := Run(Initial(), events).value;
      |g.tail| >= 1 && g.tail[|g.tail| - 1].coordinate == g.head && InGrid(g.food) && g.score == 0
  {
    InitialTrail();
    RunKeepsTrail(Initial(), events);
  }

  /** `n` ticks without key presses. */
  function Ticks(pick: Cell, n: nat): (evs: seq<Event>)
    ensures |evs| == n
  {
    seq(n, _ => Tick(pick))
  }

  /** The round after heading right from the start to column x with no
      key press (10 <= x < 20). */
  function Straight(x: i16): (g: GameState) {
    GameState(Coordinate(x, 10), [TailPart(Coordinate(x, 10))], Right, None, Coordinate(20, 10), 0)
  }

  lemma {:induction false} StraightToFood(x: i16, pick: Cell)
    requires 10 <= x < 20
    ensures Run(Straight(x), Ticks(pick, (20 - x) as nat)) ==
      Some(GameState(Coordinate(20, 10), [TailPart(Coordinate(19, 10)), TailPart(Coordinate(20, 10))],
                     Right, None, pick, 0))
    decreases 20 - x
  {
    var evs := Ticks(pick, (20 - x) as nat);
    assert evs[0] == Tick(pick);
    if x < 19 {
      assert evs[1..] == Ticks(pick, (20 - (x + 1)) as nat);
      assert AfterTick(Straight(x), pick) == Straight(x + 1);
      StraightToFood(x + 1, pick);
    } else {
      assert evs[1..] == [];
      assert AfterTick(Straight(x), pick) ==
        GameState(Coordinate(20, 10), [TailPart(Coordinate(19, 10)), TailPart(Coordinate(20, 10))],
                  Right, None, pick, 0);
    }
  }

  /** Ten ticks from the start, heading right, the head reaches the food at
      (20,10): the tail has grown to two parts, the food has moved to the
      random pick, and the score is still 0. */
  lemma FirstFoodAfterTenTicks(pick: Cell)
    ensures Run(Initial(), Ticks(pick, 10)) ==
      Some(GameState(Coordinate(20, 10), [TailPart(Coordinate(19, 10)), TailPart(Coordinate(20, 10))],
                     Right, None, pick, 0))
  {
    assert Initial() == Straight(10);
    StraightToFood(10, pick);
  }

  /** `MyGame`: the snake, the score and the food. The `last_update` clock
      is not modelled: one call of Update is one tick. */
  class MyGame {
    var snake: Snake
    var score: u16
    var food: Food

    /** The round as a value. */
    function State(): (s: GameState)
      reads this, snake, food
    {
      GameState(snake.coordinate, snake.tail, snake.direction, snake.newDirection, food.coordinate, score)
    }

    /** `MyGame::new`. */
    constructor ()
      ensures fresh(snake) && fresh(food)
      ensures State() == Initial()
    {
      snake := new Snake();
      score := 0;
      food := new Food();
    }

    /** `MyGame::turn`: adopts the pending direction unless it is the
        reverse of the current one; never clears the request. */
    method Turn()
      modifies snake`direction
      ensures State() == AfterTurn(old(State()))
    {
      match snake.newDirection
      case Some(newDirection) =>
        if newDirection != Inverse(snake.direction) {
          snake.direction := newDirection;
        }
      case None =>
    }

    /** `MyGame::collision`. Its out-of-bounds test only prints "DEAD" and is
        not modelled. On the food, the food moves somewhere on the field and
        the tail grows at the head; otherwise it slides forward. */
    method Collision()
      modifies snake`tail, food`coordinate
      ensures old(snake.coordinate == food.coordinate) ==> InGrid(food.coordinate)
      ensures State() == AfterCollision(old(State()), food.coordinate)
    {
      if snake.coordinate == food.coordinate {
        food.NewLocation();
        var newTailPart := TailPart(Coordinate(snake.coordinate.x, snake.coordinate.y));
        snake.tail := snake.tail + [newTailPart];
      } else {
        var newTailPart := TailPart(Coordinate(snake.coordinate.x, snake.coordinate.y));
        snake.tail := snake.tail + [newTailPart];
        snake.tail := snake.tail[1..];
      }
    }

    /** The tick of `EventHandler::update`: move, then turn, then collision. */
    method Update()
      requires CanStep(snake.coordinate, snake.direction)
      modifies snake, food
      ensures old(Eats(State())) ==> InGrid(food.coordinate)
      ensures State() == AfterTick(old(State()), food.coordinate)
    {
      snake.Update();
      Turn();
      Collision();
    }

    /** `key_down_event`: every key press overwrites the pending direction. */
    method KeyDownEvent(keycode: KeyCode)
      modifies snake`newDirection
      ensures State() == AfterKeyDown(old(State()), keycode)
    {
      snake.newDirection := SetNewDirection(keycode);
    }
  }
}
