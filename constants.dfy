/** Numeric configuration of the game (constants.ts). */
module Constants {
  /** Width and height of the square playing field, in cells. */
  const GRID_SIZE: int := 15
  /** Number of matcha pickups that wins the game. */
  const HEART_GOAL: int := 12
  /** Tick interval, in milliseconds, at the start of a game. */
  const INITIAL_SPEED: int := 200
  /** Amount by which the tick interval shrinks per (non-winning) matcha pickup. */
  const SPEED_INCREMENT: int := 2
  /** Smallest tick interval the game ever uses. */
  const MIN_SPEED: int := 100
  /** Number of cells on the field. */
  const GRID_CELLS: int := GRID_SIZE * GRID_SIZE
}
