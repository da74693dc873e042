/**
 * The game simulation of App.tsx as pure functions over one state record:
 * the next-head step with the magnet override, the collision and pickup
 * rules of one tick (moveSnake), the frame gate (gameLoop), the direction
 * guard of the key and touch handlers, resetGame and the button transitions.
 */
module Rules {
  import opened Constants
  import opened Types

  /** The calls moveSnake, resetGame and the buttons make on the sound manager. */
  datatype Sound = PlayPop | PlayToilet | PlayCrash | PlayWin | StartBgm | StopBgm

  /**
   * All state the simulation reads or writes, updated atomically per event.
   * `heading` is directionRef.current (what the next standard move uses);
   * `facing` is the `direction` state the bear's head is drawn with;
   * `lastUpdate` is lastUpdateRef.current; `sounds` is the trace of sound calls.
   */
  datatype World = World(
    snake: seq<Point>,
    heading: Direction,
    facing: Direction,
    matcha: Point,
    toilet: Point,
    bed: Point,
    man: Point,
    count: int,
    speed: int,
    isFrozen: bool,
    status: GameStatus,
    lastUpdate: int,
    sounds: seq<Sound>)

  /** The three-cell vertical snake every game starts with, head first. */
  const Seed: seq<Point> := [Point(7, 7), Point(7, 8), Point(7, 9)]

  /** The state before any game has started (the initial useState and useRef values). */
  const Initial: World :=
    World(Seed, Up, Up, Point(7, 3), Point(10, 10), Point(2, 2), Point(12, 2),
          0, INITIAL_SPEED, false, Start, 0, [])

  /** The four items lie on distinct grid cells, none of them on the snake. */
  predicate ItemsPlaced(w: World) {
    && InGrid(w.matcha) && InGrid(w.toilet) && InGrid(w.bed) && InGrid(w.man)
    && w.matcha !in w.snake && w.toilet !in w.snake && w.bed !in w.snake && w.man !in w.snake
    && w.matcha != w.toilet && w.matcha != w.bed && w.matcha != w.man
    && w.toilet != w.bed && w.toilet != w.man
    && w.bed != w.man
  }

  /** The snake is a non-empty list of distinct grid cells. */
  predicate SnakeWellFormed(s: seq<Point>) {
    && |s| >= 1
    && (forall i :: 0 <= i < |s| ==> InGrid(s[i]))
    && Distinct(s)
  }

  /**
   * What every reachable state satisfies: a well-formed snake, the items placed
   * off it, a non-negative score below the goal while playing, and a tick
   * interval within its bounds.
   */
  predicate Inv(w: World) {
    && SnakeWellFormed(w.snake)
    && ItemsPlaced(w)
    && 0 <= w.count
    && (w.status == Playing ==> w.count < HEART_GOAL)
    && MIN_SPEED <= w.speed <= INITIAL_SPEED
  }

  // ---------------------------------------------------------------------------
  // Movement and steering (App.tsx:60-87)

  /**
   * The man is within the attraction radius 1.5 of `head`: on one of the
   * eight neighbouring cells or on the head's own cell.
   */
  predicate Attracted(head: Point, man: Point): (r: bool)
    ensures r <==> SqDist(head, man) <= 2
  {
    WithinRadius(man.x - head.x, man.y - head.y);
    Abs(man.x - head.x) <= 1 && Abs(man.y - head.y) <= 1
  }

  /**
   * The candidate head and the heading after the move. Within the radius the
   * bear is pulled one step toward the man, along x when |dx| > |dy| and along
   * y otherwise (so a diagonal neighbour pulls vertically); outside it the bear
   * steps in its heading.
   */
  function NextHead(head: Point, heading: Direction, man: Point): (r: (Point, Direction))
    ensures !Attracted(head, man) ==> r == (Move(head, heading), heading)
    ensures Attracted(head, man) && head != man ==>
      && r.0 == Move(head, r.1)
      && Manhattan(r.0, man) == Manhattan(head, man) - 1
      && ((r.1 == Left || r.1 == Right) <==> Abs(man.x - head.x) > Abs(man.y - head.y))
    ensures head == man ==> r == (head, Up)
  {
    var dx := man.x - head.x;
    var dy := man.y - head.y;
    if Attracted(head, man) then
      if Abs(dx) > Abs(dy) then
        (Point(head.x + Sign(dx), head.y), if dx > 0 then Right else Left)
      else
        (Point(head.x, head.y + Sign(dy)), if dy > 0 then Down else Up)
    else
      (Move(head, heading), heading)
  }

  // ---------------------------------------------------------------------------
  // One tick (moveSnake, App.tsx:56-145)

  /** The candidate head ends the game: off the field, or on a body cell other than the tail (App.tsx:90-94). */
  predicate HitsWallOrSelf(snake: seq<Point>, h: Point): (r: bool)
    requires |snake| >= 1
    ensures r <==> !InGrid(h) || exists i :: 0 <= i < |snake| - 1 && snake[i] == h
  {
    !InGrid(h) || h in snake[..|snake| - 1]
  }

  /** NextHead applied to the state. */
  function Candidate(w: World): (Point, Direction)
    requires |w.snake| >= 1
  {
    NextHead(w.snake[0], w.heading, w.man)
  }

  /** Which branch of moveSnake a tick takes. */
  datatype Outcome = Frozen | Crashed | CaughtByMan | Victory | AteMatcha | UsedToilet | SleptInBed | Moved

  function Classify(w: World): Outcome
    requires |w.snake| >= 1
  {
    if w.isFrozen then Frozen
    else
      var h := Candidate(w).0;
      if HitsWallOrSelf(w.snake, h) then Crashed
      else if h == w.man then CaughtByMan
      else if h == w.matcha then (if w.count + 1 >= HEART_GOAL then Victory else AteMatcha)
      else if h == w.toilet then UsedToilet
      else if h == w.bed then SleptInBed
      else Moved
  }

  /** The state once the magnet has (possibly) turned the bear, before any collision check (App.tsx:69-78). */
  function Steered(w: World): (r: World)
    requires |w.snake| >= 1
    ensures r.heading == Candidate(w).1
    ensures r.facing == if Attracted(w.snake[0], w.man) then r.heading else w.facing
    ensures !Attracted(w.snake[0], w.man) ==> r == w
    ensures r.(heading := w.heading, facing := w.facing) == w
  {
    var d := Candidate(w).1;
    w.(heading := d, facing := if Attracted(w.snake[0], w.man) then d else w.facing)
  }

  /** The pickup at a safe head `h` draws a new cell: a non-winning matcha, a toilet or a bed. */
  predicate PickupDraws(s: World, h: Point) {
    if h == s.matcha then s.count + 1 < HEART_GOAL else h == s.toilet || h == s.bed
  }

  /** The exclusion list of that draw: the grown snake and the other three items (App.tsx:122, 129, 136). */
  function PickupExclusion(s: World, h: Point): (r: seq<Point>)
    ensures |r| == |s.snake| + 4 && r[..|s.snake| + 1] == [h] + s.snake
  {
    var grown := [h] + s.snake;
    if h == s.matcha then grown + [s.toilet, s.bed, s.man]
    else if h == s.toilet then grown + [s.matcha, s.bed, s.man]
    else grown + [s.matcha, s.toilet, s.man]
  }

  /**
   * The item part of moveSnake (App.tsx:109-143), from the steered state `s`,
   * once the head `h` is known to be safe; `spot` is the drawn cell.
   */
  function Pickup(s: World, h: Point, spot: Point): (r: World)
    requires |s.snake| >= 1
    ensures r.heading == s.heading && r.facing == s.facing && r.man == s.man && r.lastUpdate == s.lastUpdate
    // matcha: the win, or growth, a point, a faster tick and a new matcha
    ensures h == s.matcha && s.count + 1 >= HEART_GOAL ==>
      r == s.(count := s.count + 1, status := Won, sounds := s.sounds + [PlayPop, PlayWin, StopBgm])
    ensures h == s.matcha && s.count + 1 < HEART_GOAL ==>
      && r.snake == [h] + s.snake && r.count == s.count + 1 && r.matcha == spot
      && r.speed == Max(MIN_SPEED, s.speed - SPEED_INCREMENT) && r.status == s.status
      && r.toilet == s.toilet && r.bed == s.bed && r.isFrozen == s.isFrozen && r.sounds == s.sounds + [PlayPop]
    // every other cell: the head moves on and the tail follows
    ensures h != s.matcha ==>
      && r.snake == [h] + s.snake[..|s.snake| - 1] && |r.snake| == |s.snake|
      && r.matcha == s.matcha && r.speed == s.speed && r.status == s.status
    ensures h != s.matcha && h == s.toilet ==>
      && r.count == Max(0, s.count - 5) && r.toilet == spot && r.bed == s.bed
      && r.isFrozen == s.isFrozen && r.sounds == s.sounds + [PlayToilet]
    ensures h != s.matcha && h != s.toilet && h == s.bed ==>
      && r.count == s.count && r.toilet == s.toilet && r.bed == spot && r.isFrozen && r.sounds == s.sounds
    ensures h != s.matcha && h != s.toilet && h != s.bed ==>
      && r.count == s.count && r.toilet == s.toilet && r.bed == s.bed
      && r.isFrozen == s.isFrozen && r.sounds == s.sounds
  {
    var grown := [h] + s.snake;
    if h == s.matcha then
      if s.count + 1 >= HEART_GOAL then
        s.(count := s.count + 1, status := Won, sounds := s.sounds + [PlayPop, PlayWin, StopBgm])
      else
        s.(snake := grown, matcha := spot, count := s.count + 1,
           speed := Max(MIN_SPEED, s.speed - SPEED_INCREMENT), sounds := s.sounds + [PlayPop])
    else if h == s.toilet then
      s.(snake := grown[..|s.snake|], toilet := spot, count := Max(0, s.count - 5),
         sounds := s.sounds + [PlayToilet])
    else if h == s.bed then
      s.(snake := grown[..|s.snake|], bed := spot, isFrozen := true)
    else
      s.(snake := grown[..|s.snake|])
  }

  /** The tick draws a new cell for the item it picked up. */
  predicate Relocates(w: World): (r: bool)
    requires |w.snake| >= 1
    ensures r <==> Classify(w) == AteMatcha || Classify(w) == UsedToilet || Classify(w) == SleptInBed
  {
    var h := Candidate(w).0;
    !w.isFrozen && !HitsWallOrSelf(w.snake, h) && h != w.man && PickupDraws(Steered(w), h)
  }

  /** The exclusion list of a tick's draw. */
  function Relocation(w: World): (r: seq<Point>)
    requires |w.snake| >= 1
    ensures |r| == |w.snake| + 4 && r[..|w.snake| + 1] == [Candidate(w).0] + w.snake
  {
    PickupExclusion(Steered(w), Candidate(w).0)
  }

  /** The draw can succeed: its exclusion list does not fill the field (otherwise the source loops forever). */
  predicate Room(w: World)
    requires |w.snake| >= 1
  {
    Relocates(w) ==> |w.snake| + 4 < GRID_CELLS
  }

  /** The sound-manager calls a tick of each kind makes, in order. */
  function OutcomeSounds(o: Outcome): seq<Sound> {
    match o
    case Crashed => [PlayCrash, StopBgm]
    case CaughtByMan => [PlayCrash, StopBgm]
    case Victory => [PlayPop, PlayWin, StopBgm]
    case AteMatcha => [PlayPop]
    case UsedToilet => [PlayToilet]
    case _ => []
  }

  /**
   * One tick. `spot` is the cell drawn for the relocated item; it is used only
   * when Relocates(w). Losing and winning ticks keep the previous snake; a
   * non-winning matcha grows it by the new head; every other tick adds the new
   * head and drops the tail.
   */
  function Advance(w: World, spot: Point): (r: World)
    requires |w.snake| >= 1
    ensures w.isFrozen ==> r == w
    ensures !w.isFrozen ==> r.heading == Candidate(w).1
    ensures r.man == w.man && r.lastUpdate == w.lastUpdate
    // snake shape
    ensures Classify(w) in {Frozen, Crashed, CaughtByMan, Victory} ==> r.snake == w.snake
    ensures Classify(w) == AteMatcha ==> r.snake == [Candidate(w).0] + w.snake
    ensures Classify(w) in {UsedToilet, SleptInBed, Moved} ==>
      r.snake == [Candidate(w).0] + w.snake[..|w.snake| - 1]
    ensures |r.snake| == |w.snake| + (if Classify(w) == AteMatcha then 1 else 0)
    // status
    ensures Classify(w) == Crashed ==> r.status == GameOver
    ensures Classify(w) == CaughtByMan ==> r.status == GameOverMan
    ensures Classify(w) == Victory ==> r.status == Won && HEART_GOAL <= r.count
    ensures Classify(w) !in {Crashed, CaughtByMan, Victory} ==> r.status == w.status
    // score and speed
    ensures Classify(w) in {Victory, AteMatcha} ==> r.count == w.count + 1
    ensures Classify(w) == UsedToilet ==> r.count == if w.count >= 5 then w.count - 5 else 0
    ensures Classify(w) !in {Victory, AteMatcha, UsedToilet} ==> r.count == w.count
    ensures r.speed == if Classify(w) == AteMatcha then Max(MIN_SPEED, w.speed - SPEED_INCREMENT) else w.speed
    ensures w.speed >= MIN_SPEED ==> MIN_SPEED <= r.speed <= w.speed
    // items and freezing
    ensures r.matcha == if Classify(w) == AteMatcha then spot else w.matcha
    ensures r.toilet == if Classify(w) == UsedToilet then spot else w.toilet
    ensures r.bed == if Classify(w) == SleptInBed then spot else w.bed
    ensures r.isFrozen == (w.isFrozen || Classify(w) == SleptInBed)
    // the drawn direction and the sound calls
    ensures !w.isFrozen ==> r.facing == if Attracted(w.snake[0], w.man) then Candidate(w).1 else w.facing
    ensures r.sounds == w.sounds + OutcomeSounds(Classify(w))
  {
    if w.isFrozen then w
    else
      var h := Candidate(w).0;
      if HitsWallOrSelf(w.snake, h) then
        Steered(w).(status := GameOver, sounds := w.sounds + [PlayCrash, StopBgm])
      else if h == w.man then
        Steered(w).(status := GameOverMan, sounds := w.sounds + [PlayCrash, StopBgm])
      else
        Pickup(Steered(w), h, spot)
  }

  // ---------------------------------------------------------------------------
  // Frame gate (gameLoop, App.tsx:147-155) and the unfreeze timer (App.tsx:135)

  /** A frame at `time` runs a tick: the game is on and strictly more than `speed` ms have passed. */
  predicate FrameTicks(w: World, time: int): (r: bool)
    ensures r ==> w.status == Playing && time > w.lastUpdate + w.speed
    ensures w.status == Playing && time >= w.lastUpdate + w.speed + 1 ==> r
  {
    w.status == Playing && time - w.lastUpdate > w.speed
  }

  function FrameStep(w: World, time: int, spot: Point): (r: World)
    requires |w.snake| >= 1
    ensures FrameTicks(w, time) ==> r == Advance(w, spot).(lastUpdate := time)
    ensures !FrameTicks(w, time) ==> r == w
  {
    if w.status == Playing then
      if time - w.lastUpdate > w.speed then Advance(w, spot).(lastUpdate := time) else w
    else w
  }

  /** The callback setTimeout runs 1000 ms after a bed pickup. */
  function Unfreeze(w: World): (r: World)
    ensures !r.isFrozen && r.(isFrozen := w.isFrozen) == w
  {
    w.(isFrozen := false)
  }

  // ---------------------------------------------------------------------------
  // Direction requests (App.tsx:166-177, 337-347)

  /** The guard of every handler: a request is ignored exactly when it reverses the current heading. */
  function Steer(current: Direction, requested: Direction): (r: Direction)
    ensures r != Opposite(current)
    ensures r == requested <==> requested != Opposite(current)
    ensures r != requested ==> r == current
  {
    if current != Opposite(requested) then requested else current
  }

  /** The keys the keyboard handler recognises. */
  function KeyDirection(key: string): (r: Option<Direction>)
    ensures r == Some(Up) <==> key == "ArrowUp" || key == "w"
    ensures r == Some(Down) <==> key == "ArrowDown" || key == "s"
    ensures r == Some(Left) <==> key == "ArrowLeft" || key == "a"
    ensures r == Some(Right) <==> key == "ArrowRight" || key == "d"
  {
    if key == "ArrowUp" || key == "w" then Some(Up)
    else if key == "ArrowDown" || key == "s" then Some(Down)
    else if key == "ArrowLeft" || key == "a" then Some(Left)
    else if key == "ArrowRight" || key == "d" then Some(Right)
    else None
  }

  /** handleKeyDown: steer on a recognised key, then draw the head facing the heading. */
  function KeyDown(w: World, key: string): (r: World)
    ensures r.heading != Opposite(w.heading)
    ensures KeyDirection(key) == None ==> r.heading == w.heading
    ensures KeyDirection(key).Some? && KeyDirection(key).value != Opposite(w.heading) ==>
      r.heading == KeyDirection(key).value
    ensures KeyDirection(key).Some? && KeyDirection(key).value == Opposite(w.heading) ==>
      r.heading == w.heading
    ensures r.facing == r.heading
    ensures r == w.(heading := r.heading, facing := r.heading)
  {
    var heading := match KeyDirection(key)
      case Some(d) => Steer(w.heading, d)
      case None => w.heading;
    w.(heading := heading, facing := heading)
  }

  /** A touch arrow: steer, but draw the head facing the requested direction even when the guard refuses it. */
  function Touch(w: World, d: Direction): (r: World)
    ensures r.heading != Opposite(w.heading)
    ensures d != Opposite(w.heading) ==> r.heading == d
    ensures d == Opposite(w.heading) ==> r.heading == w.heading
    ensures r.facing == d
    ensures r == w.(heading := r.heading, facing := d)
  {
    w.(heading := Steer(w.heading, d), facing := d)
  }

  // ---------------------------------------------------------------------------
  // resetGame (App.tsx:36-53) and the buttons (App.tsx:250, 266, 283, 289, 325)

  /** How resetGame places the items: each one a grid cell off the seed and off the items placed before it. */
  predicate PlacedOnReset(m: Point, t: Point, b: Point, mn: Point) {
    && InGrid(m) && InGrid(t) && InGrid(b) && InGrid(mn)
    && m !in Seed
    && t !in Seed + [m]
    && b !in Seed + [m, t]
    && mn !in Seed + [m, t, b]
  }

  /** resetGame with the four drawn cells; lastUpdateRef is left as it was. */
  function Restarted(w: World, m: Point, t: Point, b: Point, mn: Point): (r: World)
    requires PlacedOnReset(m, t, b, mn)
    ensures Inv(r) && r.status == Playing && r.count == 0 && !r.isFrozen
    ensures r.snake == Seed && r.heading == Up && r.speed == INITIAL_SPEED
    ensures r.matcha == m && r.toilet == t && r.bed == b && r.man == mn
    ensures r.lastUpdate == w.lastUpdate && r.facing == Up && r.sounds == w.sounds + [StartBgm]
  {
    w.(snake := Seed, heading := Up, facing := Up, matcha := m, toilet := t, bed := b, man := mn,
       count := 0, speed := INITIAL_SPEED, isFrozen := false, status := Playing,
       sounds := w.sounds + [StartBgm])
  }

  datatype Button = StartJourney | Restart | Yes | PlayAgain

  /** The button is on screen in status `s`. */
  predicate Shown(b: Button, s: GameStatus) {
    match b
    case StartJourney => s == Start
    case Restart => s == GameOver || s == GameOverMan
    case Yes => s == Won
    case PlayAgain => s == Celebrating
  }

  /** Either YES button: the proposal is accepted. */
  function AcceptProposal(w: World): (r: World)
    ensures r.status == Celebrating && r.sounds == w.sounds + [PlayWin]
    ensures r.(status := w.status, sounds := w.sounds) == w
  {
    w.(status := Celebrating, sounds := w.sounds + [PlayWin])
  }

  /** "Play again?": back to the start screen, nothing else changes. */
  function PlayAgainPressed(w: World): (r: World)
    ensures r.status == Start && r == w.(status := Start)
  {
    w.(status := Start)
  }
}
