# Snake: the one-tick simulation, modelled in Dafny

This project models the game logic of a single-file Snake game written in Rust
on top of the ggez framework (`src/main.rs`). The framework parts are left out.
The model covers:

- the grid geometry: an 80 × 40 field of `i16` coordinates, its bounds test, and
  the four directions with their inverses;
- the snake: its head, its tail (a double-ended queue, front = oldest part), its
  current direction and its optional requested direction;
- the food and how it is moved;
- the round `MyGame`: key presses overwrite the requested direction, and every
  tick runs *move, then turn, then collision*.

Files:

- `wrappers.dfy`: `Option`.
- `grid.dfy`: modules `Constants` and `Grid`.
- `things.dfy`: module `Things`, with the key map, the class `Snake`, the
  datatype `TailPart` and the class `Food`.
- `game.dfy`: module `Game`, with the class `MyGame` and a value-level
  specification of the same round (`GameState`, `AfterTick`, `Run`).

Each mutating method of `MyGame` has an `ensures` that equates the new
`State()` with a function of `old(State())`; the properties are then proved as
lemmas about those functions. `Snake.Update` is proved equal to `Grid.Step` of
the old head. `Food.NewLocation` ensures only that the new cell is on the field.

The random cell that `Food::new_location` picks becomes a nondeterministic
choice of any in-grid cell (`:|` in `Food.NewLocation`). In the value-level
model it becomes a parameter `pick`; in a `Run`, every tick carries a `pick` of
type `Cell`, meaning a coordinate on the field.

`Coordinate::new(x, y)` is the datatype constructor `Coordinate(x, y)`.
`TailPart::new(x, y)` is `TailPart(Coordinate(x, y))`.

Several things a reader might expect of a Snake game are absent from this
code, and the model does not add them:

- Nothing resets the round on death. Leaving the field only prints "DEAD"
  (src/main.rs:205-207), and the head keeps moving.
- The score is set to 0 at src/main.rs:189 and is never incremented.
- Each tick moves the head before it applies the turn (src/main.rs:227-228).
- There is one pending direction, with no second queued request, and the turn
  never clears it (src/main.rs:193-203).
- Nothing checks whether the head runs into the tail.
- The new food may land on any cell, including one the tail occupies
  (src/main.rs:149-156).

## Model

| member | source | states |
|---|---|---|
| Grid.OutOfBounds | src/main.rs:24-29 | true exactly when x < 0, y < 0, x ≥ 80 or y ≥ 40, i.e. exactly when the cell is not on the field; as a function it cannot change the coordinate |
| Grid.Inverse | src/main.rs:50-57 | the inverse direction's move is the exact opposite displacement of the argument's, and the result is never the argument |
| Grid.InverseInvolution | src/main.rs:50-57 | applying inverse twice gives back the direction |
| Grid.InverseInjective | src/main.rs:50-57 | distinct directions have distinct inverses, so inverse is a bijection |
| Grid.Step | src/main.rs:120-127 | the head's move changes exactly one axis by one cell (Up y−1, Down y+1, Left x−1, Right x+1); old and new cells share a side |
| Grid.StepBack | src/main.rs:120-127 | a move along the inverse direction returns to the starting cell |
| Grid.StepInjective | src/main.rs:120-127 | two different directions never move a head to the same cell |
| Things.SetNewDirection | src/main.rs:84-92 | W, S, A and D give Some(Up), Some(Down), Some(Left) and Some(Right); every other key gives None |
| Things.KeyRoundTrip | src/main.rs:84-92 | the key bound to a direction maps back to that direction |
| Things.Snake.constructor | src/main.rs:74-83 | the head is at (10,10), the tail is one part at (10,10), the direction is Right and no direction is requested |
| Things.Snake.InitTail | src/main.rs:94-100 | the initial tail has exactly one part, at the starting coordinate |
| Things.Snake.Update | src/main.rs:120-127 | the head becomes one step from the old head along the current direction; the tail, direction and requested direction are untouched |
| Things.Food.constructor | src/main.rs:144-148 | the first food is at (20,10) |
| Things.Food.NewLocation | src/main.rs:149-156 | the new food coordinate lies in [0,80)×[0,40) |
| Game.Turned | src/main.rs:193-203 | the direction after a turn is never the reverse of the old one; it is either the old direction or the requested one, and it is the requested one whenever that is not a reversal |
| Game.TurnAdoptsUnlessReversal | src/main.rs:193-203 | the direction changes to d exactly when d is requested and d is not the inverse of the current direction; with no request, or with a reversal requested, it stays |
| Game.CollisionWhenEating | src/main.rs:208-212 | head on the food: the tail grows by exactly one, the new back part is the head, the earlier parts are unchanged, and the food becomes the picked cell; head, direction, request and score are unchanged |
| Game.CollisionWhenSliding | src/main.rs:213-217 | head not on the food: the tail keeps its length, and it is the old tail without its front part plus the head at the back; the food and everything else are unchanged |
| Game.TickFacts | src/main.rs:227-229 | a tick moves the head along the direction held before the tick and then adopts the turn; it keeps the request and the score; the tail grows by one exactly when the moved head lands on the food, and its back part is the new head |
| Game.KeyThenTick | src/main.rs:227-229 | a key press does not change the next tick's move. A legal request becomes the direction used for the following move. A reversal or an unbound key leaves the direction as it was |
| Game.KeyDownOverwrites | src/main.rs:251 | every key press overwrites the requested direction: an unbound key clears a pending turn, a bound key requests its direction; nothing else changes |
| Game.InitialTrail | src/main.rs:185-192 | the starting round has a non-empty tail ending at the head, and food on the field |
| Game.TickKeepsTrail | src/main.rs:204-218 | for every random pick, a tick preserves the invariant: the tail is non-empty, its back part is the head, consecutive parts share a side, and the food is on the field |
| Game.RunKeepsTrail | src/main.rs:222-232 | any sequence of key presses and ticks preserves that invariant and never changes the score |
| Game.RunFromStart | src/main.rs:185-192 | from the start of a round, after any number of key presses and ticks, the tail is non-empty and ends at the head, the food is on the field and the score is 0 |
| Game.StraightToFood | src/main.rs:204-218 | from any column 10 ≤ x < 20 of row 10, heading Right with a one-part tail, the ticks up to column 20 end on the food with a two-part tail |
| Game.FirstFoodAfterTenTicks | src/main.rs:227-229 | after ten ticks from the start with no key presses, the head is at (20,10), the tail is (19,10),(20,10), the food has moved to the pick and the score is still 0 |
| Game.MyGame.constructor | src/main.rs:185-192 | a new round is the initial state: snake from `Snake::new`, food at (20,10), score 0 |
| Game.MyGame.Turn | src/main.rs:193-203 | the new state is the old one with the direction after a turn; the request is not cleared |
| Game.MyGame.Collision | src/main.rs:204-218 | the new state is the collision outcome of the old state; after eating, the food is on the field |
| Game.MyGame.Update | src/main.rs:222-232 | the new state is one tick (move, turn, collision) of the old state; after eating, the food is on the field |
| Game.MyGame.KeyDownEvent | src/main.rs:242-252 | the new state is the old one with the requested direction replaced by the key's mapping |

## Left out

- All `draw` methods and `From<Coordinate> for graphics::Rect`: these render through ggez and use floating point.
- `main`, `ContextBuilder` and `event::run`: windowing and the framework's event loop.
- The `last_update` clock and its `MS_PER_UPDATE` gate, together with `DESIRED_FPS`, `WINDOW_SIZE` and `CELL_SIZE`: time and pixel geometry. One call of `MyGame.Update` is one tick.
- `println!("DEAD")` in `collision`: output only, with no effect on the state, so `Collision` does not call the bounds test that guards it.
- Things.Food.NewLocation: states only that the new cell is on the field. The uniform distribution of `rand::thread_rng().gen_range` is not modelled.
- Things.Snake.Update: requires that the move stays within the i16 range. The source's arithmetic would panic in a debug build and wrap in a release build; neither is modelled.
- Game.MyGame.Update: requires the same i16 range condition for the tick's move.
- Overflow in a sequence of events: in `Game.Run`, a tick whose move would leave the i16 range ends the run with None, standing for the panic the move's i16 arithmetic would raise in a debug build (the drawing code, left out, overflows earlier).
