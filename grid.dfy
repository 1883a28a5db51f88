/** The compile-time configuration of the game (module `constants`). */
module Constants {
  /** GRID_SIZE: the playing field is 80 cells wide and 40 cells high. */
  const GRID_WIDTH: int := 80
  const GRID_HEIGHT: int := 40
}

/** Cells of the playing field and the four directions (module `grid`). */
module Grid {
  import opened Constants

  /** The range of Rust's 16-bit signed integer. */
  predicate InI16(n: int) {
    -0x8000 <= n < 0x8000
  }

  /** Coordinates are `i16`. */
  newtype i16 = x: int | InI16(x)

  /** A grid cell; `Coordinate::new(x, y)` is the datatype constructor. */
  datatype Coordinate = Coordinate(x: i16, y: i16)

  /** The cells of the playing field. */
  predicate InGrid(c: Coordinate) {
    0 <= c.x as int < GRID_WIDTH && 0 <= c.y as int < GRID_HEIGHT
  }

  /** A coordinate that lies on the playing field. */
  type Cell = c: Coordinate | InGrid(c) witness Coordinate(0, 0)

  /** `out_of_bounds`: it takes `&mut self` in the source but assigns nothing,
      so it is a function of the coordinate here. */
  function OutOfBounds(c: Coordinate): (r: bool)
    ensures r <==> !InGrid(c)
  {
    c.x as int >= GRID_WIDTH || c.y as int >= GRID_HEIGHT || c.x < 0 || c.y < 0
  }

  datatype Direction = Left | Right | Up | Down

  /** The displacement of one move in each direction; y grows downwards. */
  function Delta(d: Direction): (r: (int, int)) {
    match d
    case Up => (0, -1)
    case Down => (0, 1)
    case Left => (-1, 0)
    case Right => (1, 0)
  }

  /** `Direction::inverse`: the direction whose move undoes a move in `d`. */
  function Inverse(d: Direction): (r: Direction)
    ensures Delta(r).0 == -Delta(d).0 && Delta(r).1 == -Delta(d).1
    ensures r != d
  {
    match d
    case Up => Down
    case Down => Up
    case Left => Right
    case Right => Left
  }

  /** A direction is determined by its displacement. */
  lemma DeltaInjective(a: Direction, b: Direction)
    requires Delta(a) == Delta(b)
    ensures a == b
  {
  }

  /** Inverse is an involution, which follows from its displacement contract. */
  lemma InverseInvolution(d: Direction)
    ensures Inverse(Inverse(d)) == d
  {
    DeltaInjective(Inverse(Inverse(d)), d);
  }

  /** Inverse is a bijection on the four directions. */
  lemma InverseInjective(a: Direction, b: Direction)
    requires Inverse(a) == Inverse(b)
    ensures a == b
  {
    InverseInvolution(a);
    InverseInvolution(b);
  }

  /** Moving `c` one cell along `d` stays within i16 (no arithmetic overflow). */
  predicate CanStep(c: Coordinate, d: Direction) {
    InI16(c.x as int + Delta(d).0) && InI16(c.y as int + Delta(d).1)
  }

  /** Two cells that share a side. */
  predicate Adjacent(a: Coordinate, b: Coordinate) {
    Abs(a.x as int - b.x as int) + Abs(a.y as int - b.y as int) == 1
  }

  function Abs(n: int): nat {
    if n < 0 then -n else n
  }

  /** The head's move in `Snake::update`, as a function of the cell and the direction. */
  function Step(c: Coordinate, d: Direction): (r: Coordinate)
    requires CanStep(c, d)
    ensures r.x as int == c.x as int + Delta(d).0
    ensures r.y as int == c.y as int + Delta(d).1
    ensures Adjacent(c, r)
  {
    match d
    case Up => c.(y := c.y - 1)
    case Down => c.(y := c.y + 1)
    case Left => c.(x := c.x - 1)
    case Right => c.(x := c.x + 1)
  }

  /** A move along the inverse direction undoes a move. */
  lemma StepBack(c: Coordinate, d: Direction)
    requires CanStep(c, d)
    ensures CanStep(Step(c, d), Inverse(d))
    ensures Step(Step(c, d), Inverse(d)) == c
  {
  }

  /** Different directions lead to different cells. */
  lemma StepInjective(c: Coordinate, a: Direction, b: Direction)
    requires CanStep(c, a) && CanStep(c, b)
    requires Step(c, a) == Step(c, b)
    ensures a == b
  {
    DeltaInjective(a, b);
  }
}
