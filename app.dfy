/**
 * The component's mutable state and its event handlers (App.tsx). Each method
 * updates the fields in place as the corresponding handler does, and its
 * contract ties the new state to the pure rules of module Rules.
 */
module App {
  import opened Constants
  import opened Types
  import opened Placement
  import opened Rules
  import opened Properties

  class Game {
    /** Math.random, as the stream of cells getRandomPoint draws. */
    const rng: nat -> Point
    /** How much of the stream has been consumed. */
    var cursor: nat

    var snake: seq<Point>
    /** directionRef.current */
    var heading: Direction
    /** the `direction` state the head is drawn with */
    var facing: Direction
    var matcha: Point
    var toilet: Point
    var bed: Point
    var man: Point
    var count: int
    var speed: int
    var isFrozen: bool
    var status: GameStatus
    /** lastUpdateRef.current */
    var lastUpdate: int
    /** the calls made so far on the sound manager */
    var sounds: seq<Sound>

    ghost function State(): World
      reads this
    {
      World(snake, heading, facing, matcha, toilet, bed, man, count, speed, isFrozen, status, lastUpdate, sounds)
    }

    ghost predicate Valid()
      reads this
    {
      RandomSource(rng) && Inv(State())
    }

    // The setters of the component's useState hooks and the sound manager's
    // calls: each one replaces one field and leaves the rest as it was.

    method SetSnake(v: seq<Point>)
      modifies this`snake
      ensures State() == old(State()).(snake := v)
    {
      snake := v;
    }

    method SetDirection(v: Direction)
      modifies this`facing
      ensures State() == old(State()).(facing := v)
    {
      facing := v;
    }

    method SetMatcha(v: Point)
      modifies this`matcha
      ensures State() == old(State()).(matcha := v)
    {
      matcha := v;
    }

    method SetToilet(v: Point)
      modifies this`toilet
      ensures State() == old(State()).(toilet := v)
    {
      toilet := v;
    }

    method SetBed(v: Point)
      modifies this`bed
      ensures State() == old(State()).(bed := v)
    {
      bed := v;
    }

    method SetMan(v: Point)
      modifies this`man
      ensures State() == old(State()).(man := v)
    {
      man := v;
    }

    method SetCount(v: int)
      modifies this`count
      ensures State() == old(State()).(count := v)
    {
      count := v;
    }

    method SetSpeed(v: int)
      modifies this`speed
      ensures State() == old(State()).(speed := v)
    {
      speed := v;
    }

    method SetIsFrozen(v: bool)
      modifies this`isFrozen
      ensures State() == old(State()).(isFrozen := v)
    {
      isFrozen := v;
    }

    method SetStatus(v: GameStatus)
      modifies this`status
      ensures State() == old(State()).(status := v)
    {
      status := v;
    }

    /** directionRef.current = v */
    method SetHeading(v: Direction)
      modifies this`heading
      ensures State() == old(State()).(heading := v)
    {
      heading := v;
    }

    /** One call on the sound manager. */
    method Play(v: Sound)
      modifies this`sounds
      ensures State() == old(State()).(sounds := old(sounds) + [v])
    {
      sounds := sounds + [v];
    }

    /** The component's first render: the initial useState and useRef values. */
    constructor (rng: nat -> Point)
      requires RandomSource(rng)
      ensures Valid() && State() == Initial
      ensures this.rng == rng && cursor == 0
    {
      this.rng := rng;
      cursor := 0;
      snake := Seed;
      heading, facing := Up, Up;
      matcha, toilet, bed, man := Point(7, 3), Point(10, 10), Point(2, 2), Point(12, 2);
      count, speed := 0, INITIAL_SPEED;
      isFrozen := false;
      status := Start;
      lastUpdate := 0;
      sounds := [];
    }

    /** Draws a cell off `exclude` from the stream, advancing the cursor past it. */
    method Draw(exclude: seq<Point>) returns (p: Point)
      requires RandomSource(rng) && |exclude| < GRID_CELLS
      modifies this`cursor
      ensures FirstFreeDraw(rng, old(cursor), cursor, exclude, p)
      ensures InGrid(p)
    {
      FreeDrawAhead(rng, cursor, exclude);
      p, cursor := GetRandomPoint(rng, cursor, exclude);
    }

    /**
     * moveSnake: one tick. `spot` is the cell drawn for a relocated item; it is
     * the first stream cell off the tick's exclusion list.
     */
    method Tick() returns (ghost spot: Point)
      requires Valid() && Room(State())
      modifies this
      ensures State() == Advance(old(State()), spot)
      ensures Valid()
      ensures Relocates(old(State())) ==> FirstFreeDraw(rng, old(cursor), cursor, Relocation(old(State())), spot)
      ensures !Relocates(old(State())) ==> cursor == old(cursor)
    {
      ghost var w := State();
      spot := matcha;
      if isFrozen {
        return;
      }
      var head := snake[0];
      var next := NextHead(head, heading, man);
      var newHead := next.0;
      if Attracted(head, man) {
        SetHeading(next.1);
        SetDirection(next.1);
      }
      assert State() == Steered(w);
      if HitsWallOrSelf(snake, newHead) {
        Play(PlayCrash);
        Play(StopBgm);
        SetStatus(GameOver);
      } else if newHead == man {
        Play(PlayCrash);
        Play(StopBgm);
        SetStatus(GameOverMan);
      } else {
        spot := Pickup(newHead);
      }
      AdvanceKeepsInv(w, spot);
    }

    /** The rest of moveSnake once the candidate head is known to be safe (App.tsx:109-143). */
    method Pickup(newHead: Point) returns (spot: Point)
      requires RandomSource(rng) && |snake| >= 1
      requires PickupDraws(State(), newHead) ==> |snake| + 4 < GRID_CELLS
      modifies this
      ensures State() == Rules.Pickup(old(State()), newHead, spot)
      ensures PickupDraws(old(State()), newHead) ==>
        FirstFreeDraw(rng, old(cursor), cursor, PickupExclusion(old(State()), newHead), spot)
      ensures !PickupDraws(old(State()), newHead) ==> cursor == old(cursor)
    {
      spot := matcha;
      var newSnake := [newHead] + snake;
      if newHead == matcha {
        Play(PlayPop);
        var newCount := count + 1;
        SetCount(newCount);
        if newCount >= HEART_GOAL {
          Play(PlayWin);
          Play(StopBgm);
          SetStatus(Won);
          return;
        }
        spot := Draw(newSnake + [toilet, bed, man]);
        SetMatcha(spot);
        SetSpeed(Max(MIN_SPEED, speed - SPEED_INCREMENT));
      } else if newHead == toilet {
        Play(PlayToilet);
        SetCount(Max(0, count - 5));
        spot := Draw(newSnake + [matcha, bed, man]);
        SetToilet(spot);
        newSnake := newSnake[..|newSnake| - 1];
      } else if newHead == bed {
        SetIsFrozen(true);
        spot := Draw(newSnake + [matcha, toilet, man]);
        SetBed(spot);
        newSnake := newSnake[..|newSnake| - 1];
      } else {
        newSnake := newSnake[..|newSnake| - 1];
      }
      SetSnake(newSnake);
    }

    /** gameLoop: one animation frame at `time`. */
    method Frame(time: int) returns (ghost spot: Point)
      requires Valid() && (FrameTicks(State(), time) ==> Room(State()))
      modifies this
      ensures Valid()
      ensures State() == FrameStep(old(State()), time, spot)
      ensures FrameTicks(old(State()), time) && Relocates(old(State())) ==>
        FirstFreeDraw(rng, old(cursor), cursor, Relocation(old(State())), spot)
      ensures !(FrameTicks(old(State()), time) && Relocates(old(State()))) ==> cursor == old(cursor)
    {
      spot := matcha;
      if status == Playing {
        if time - lastUpdate > speed {
          spot := Tick();
          lastUpdate := time;
        }
      }
    }

    /** The 1000 ms timer armed by a bed pickup fires. */
    method Unfreeze()
      requires Valid()
      modifies this`isFrozen
      ensures Valid() && State() == Rules.Unfreeze(old(State()))
    {
      SetIsFrozen(false);
    }

    /** handleKeyDown */
    method KeyDown(key: string)
      requires Valid()
      modifies this`heading, this`facing
      ensures Valid() && State() == Rules.KeyDown(old(State()), key)
    {
      var requested := KeyDirection(key);
      if requested.Some? {
        SetHeading(Steer(heading, requested.value));
      }
      SetDirection(heading);
    }

    /** The onTouchStart handler of the arrow button for `d`. */
    method Touch(d: Direction)
      requires Valid()
      modifies this`heading, this`facing
      ensures Valid() && State() == Rules.Touch(old(State()), d)
    {
      SetHeading(Steer(heading, d));
      SetDirection(d);
    }

    /** The four getRandomPoint calls of resetGame, each excluding the seed snake and the cells drawn before it. */
    method PlaceItems() returns (p1: Point, p2: Point, p3: Point, p4: Point, ghost c1: nat, ghost c2: nat, ghost c3: nat)
      requires RandomSource(rng)
      modifies this`cursor
      ensures PlacedOnReset(p1, p2, p3, p4)
      ensures FirstFreeDraw(rng, old(cursor), c1, Seed, p1)
      ensures FirstFreeDraw(rng, c1, c2, Seed + [p1], p2)
      ensures FirstFreeDraw(rng, c2, c3, Seed + [p1, p2], p3)
      ensures FirstFreeDraw(rng, c3, cursor, Seed + [p1, p2, p3], p4)
    {
      p1 := Draw(Seed);
      c1 := cursor;
      p2 := Draw(Seed + [p1]);
      c2 := cursor;
      p3 := Draw(Seed + [p1, p2]);
      c3 := cursor;
      p4 := Draw(Seed + [p1, p2, p3]);
    }

    /**
     * resetGame: the seed snake heading up, the four items drawn in turn, the
     * score, interval and freeze flag reset, and the game on.
     */
    method Reset() returns (ghost c1: nat, ghost c2: nat, ghost c3: nat)
      requires RandomSource(rng)
      modifies this
      ensures PlacedOnReset(matcha, toilet, bed, man)
      ensures State() == Restarted(old(State()), matcha, toilet, bed, man)
      ensures Valid()
      ensures FirstFreeDraw(rng, old(cursor), c1, Seed, matcha)
      ensures FirstFreeDraw(rng, c1, c2, Seed + [matcha], toilet)
      ensures FirstFreeDraw(rng, c2, c3, Seed + [matcha, toilet], bed)
      ensures FirstFreeDraw(rng, c3, cursor, Seed + [matcha, toilet, bed], man)
    {
      var p1, p2, p3, p4;
      p1, p2, p3, p4, c1, c2, c3 := PlaceItems();
      Restore(p1, p2, p3, p4);
    }

    /** The setter calls of resetGame, once the four cells are drawn. */
    method Restore(p1: Point, p2: Point, p3: Point, p4: Point)
      requires PlacedOnReset(p1, p2, p3, p4)
      modifies this
      ensures State() == Restarted(old(State()), p1, p2, p3, p4) && cursor == old(cursor)
    {
      SetSnake(Seed);
      SetDirection(Up);
      SetHeading(Up);
      SetMatcha(p1);
      SetToilet(p2);
      SetBed(p3);
      SetMan(p4);
      SetCount(0);
      SetSpeed(INITIAL_SPEED);
      SetIsFrozen(false);
      SetStatus(Playing);
      Play(StartBgm);
    }

    /** A click on one of the buttons on screen. */
    method Click(b: Button)
      requires Valid() && Shown(b, status)
      modifies this
      ensures Valid()
      ensures (b == StartJourney || b == Restart) ==>
        PlacedOnReset(matcha, toilet, bed, man) && State() == Restarted(old(State()), matcha, toilet, bed, man)
      ensures b == Yes ==> State() == AcceptProposal(old(State())) && cursor == old(cursor)
      ensures b == PlayAgain ==> State() == PlayAgainPressed(old(State())) && cursor == old(cursor)
    {
      match b
      case StartJourney =>
        ghost var c1, c2, c3 := Reset();
      case Restart =>
        ghost var c1, c2, c3 := Reset();
      case Yes =>
        SetStatus(Celebrating);
        Play(PlayWin);
      case PlayAgain =>
        SetStatus(Start);
    }
  }
}
