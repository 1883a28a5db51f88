/** The snake, its tail parts and the food (module `things`). */
module Things {
  import opened Wrappers
  import opened Constants
  import opened Grid

  /** One segment of the tail; `TailPart::new(x, y)` is `TailPart(Coordinate(x, y))`. */
  datatype TailPart = TailPart(coordinate: Coordinate)

  /** The framework's key codes: the four the game binds, and every other key. */
  datatype KeyCode = W | A | S | D | Other(code: nat)

  /** The key bound to each direction. */
  function KeyFor(d: Direction): (k: KeyCode) {
    match d
    case Up => W
    case Down => S
    case Left => A
    case Right => D
  }

  /** `Snake::set_new_direction`: the direction a key asks for, if any. */
  function SetNewDirection(k: KeyCode): (r: Option<Direction>)
    ensures forall d :: r == Some(d) <==> k == KeyFor(d)
    ensures r == None <==> k.Other?
  {
    match k
    case W => Some(Up)
    case S => Some(Down)
    case A => Some(Left)
    case D => Some(Right)
    case Other(_) => None
  }

  /** The binding and the key mapping are inverse to each other. */
  lemma {:induction false} KeyRoundTrip(d: Direction)
    ensures SetNewDirection(KeyFor(d)) == Some(d)
  {
    match d
    case Up =>
    case Down =>
    case Left =>
    case Right =>
  }

  class Snake {
    /** The head. */
    var coordinate: Coordinate
    /** The tail, front (oldest part) first, like the source's `VecDeque`. */
    var tail: seq<TailPart>
    var direction: Direction
    /** The direction last asked for by a key press. */
    var newDirection: Option<Direction>

    /** `Snake::new`: head at (10,10) heading Right, no turn pending. */
    constructor ()
      ensures coordinate == Coordinate(10, 10)
      ensures tail == [TailPart(Coordinate(10, 10))]
      ensures direction == Right && newDirection == None
    {
      var startingDirection := Right;
      var startingCoordinate := Coordinate(10, 10);
      var initialTail := InitTail(startingCoordinate);
      coordinate := startingCoordinate;
      tail := initialTail;
      direction := startingDirection;
      newDirection := None;
    }

    /** `Snake::init_tail`: a tail of one part at the starting cell. */
    static method InitTail(start: Coordinate) returns (v: seq<TailPart>)
      ensures |v| == 1 && v[0].coordinate == start
    {
      v := [];
      v := v + [TailPart(Coordinate(start.x, start.y))];
    }

    /** `Snake::update`: the head moves one cell along the current direction.
        The source's i16 arithmetic would overflow at the edge of the i16
        range; the caller must stay inside it. */
    method Update()
      requires CanStep(coordinate, direction)
      modifies this`coordinate
      ensures coordinate == Step(old(coordinate), direction)
    {
      match direction
      case Up => coordinate := coordinate.(y := coordinate.y - 1);
      case Down => coordinate := coordinate.(y := coordinate.y + 1);
      case Left => coordinate := coordinate.(x := coordinate.x - 1);
      case Right => coordinate := coordinate.(x := coordinate.x + 1);
    }
  }

  class Food {
    var coordinate: Coordinate

    /** `Food::new`: the first food is at (20,10). */
    constructor ()
      ensures coordinate == Coordinate(20, 10)
    {
      coordinate := Coordinate(20, 10);
    }

    /** `Food::new_location`: some cell of the field, chosen at random by the
        source; here any in-grid cell may be chosen, including one the
        snake occupies. */
    method NewLocation()
      modifies this`coordinate
      ensures InGrid(coordinate)
    {
      assert 0 <= 0 as i16 < GRID_WIDTH as i16;
      var x: i16 :| 0 <= x < GRID_WIDTH as i16;
      var y: i16 :| 0 <= y < GRID_HEIGHT as i16;
      coordinate := coordinate.(x := x);
      coordinate := coordinate.(y := y);
    }
  }
}
