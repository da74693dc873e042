/** Concrete ticks and key sequences, worked out against the rules. */
module Scenarios {
  import opened Constants
  import opened Types
  import opened Rules

  /** A game just started, with the matcha right above the bear's head. */
  const Fresh: World := Initial.(status := Playing, matcha := Point(7, 6))

  /** The first matcha: one point, one segment longer, the interval 2 ms shorter, a pop. */
  lemma FirstMatcha(spot: Point)
    ensures var r := Advance(Fresh, spot);
      && r.count == 1 && |r.snake| == 4 && r.snake[0] == Point(7, 6)
      && r.speed == 198 && r.matcha == spot && r.status == Playing
      && r.sounds == [PlayPop]
  {
    assert Classify(Fresh) == AteMatcha;
  }

  /** The matcha that brings the score to 12 wins without moving the bear. */
  lemma GoalMatchaWins(spot: Point)
    ensures var w := Fresh.(count := HEART_GOAL - 1);
      var r := Advance(w, spot);
      && r.status == Won && r.count == HEART_GOAL && r.snake == Seed && r.matcha == w.matcha
      && r.sounds == [PlayPop, PlayWin, StopBgm]
  {
    var w := Fresh.(count := HEART_GOAL - 1);
    assert Classify(w) == Victory;
  }

  /** The toilet at a score of 3 takes the score to 0, not -2, and the snake keeps its length. */
  lemma ToiletFloorsAtZero(spot: Point)
    ensures var w := Initial.(status := Playing, toilet := Point(7, 6), count := 3);
      var r := Advance(w, spot);
      && r.count == 0 && |r.snake| == 3 && r.toilet == spot && r.sounds == [PlayToilet]
  {
    var w := Initial.(status := Playing, toilet := Point(7, 6), count := 3);
    assert Classify(w) == UsedToilet;
  }

  /** A bed freezes the bear: the rest of the state moves once, then ticks do nothing until the timer fires. */
  lemma BedFreezes(spot: Point, spot2: Point)
    ensures var w := Initial.(status := Playing, bed := Point(7, 6));
      var r := Advance(w, spot);
      && r.isFrozen && r.bed == spot && r.snake == [Point(7, 6), Point(7, 7), Point(7, 8)]
      && Advance(r, spot2) == r
  {
    var w := Initial.(status := Playing, bed := Point(7, 6));
    assert Classify(w) == SleptInBed;
  }

  /** Steering left along the top row off the left edge ends the game with the snake where it was. */
  lemma OffTheLeftEdge(spot: Point)
    ensures var w := Initial.(status := Playing, snake := [Point(0, 0), Point(1, 0), Point(2, 0)], heading := Left);
      var r := Advance(w, spot);
      && r.status == GameOver && r.snake == w.snake && r.sounds == [PlayCrash, StopBgm]
  {
    var w := Initial.(status := Playing, snake := [Point(0, 0), Point(1, 0), Point(2, 0)], heading := Left);
    assert Classify(w) == Crashed;
  }

  /**
   * The man diagonally ahead pulls the bear vertically: with dx == dy == 1 in
   * size the pull goes along y, not x, and turns the heading.
   */
  lemma DiagonalPullIsVertical(spot: Point)
    ensures var w := Initial.(status := Playing, heading := Right, man := Point(8, 6));
      var r := Advance(w, spot);
      && r.snake[0] == Point(7, 6) && r.heading == Up && r.facing == Up
  {
    var w := Initial.(status := Playing, heading := Right, man := Point(8, 6));
    assert Candidate(w) == (Point(7, 6), Up);
    assert Classify(w) == Moved;
  }

  /** The man straight ahead is walked into: the game is over. */
  lemma WalkIntoTheMan(spot: Point)
    ensures var w := Initial.(status := Playing, man := Point(7, 6));
      Advance(w, spot).status == GameOverMan
  {
    var w := Initial.(status := Playing, man := Point(7, 6));
    assert Classify(w) == CaughtByMan;
  }

  /**
   * Two quick key presses between ticks reverse the bear: each passes the
   * guard against the heading, but together they turn up into down, and the
   * next tick runs into the neck.
   */
  lemma TwoQuickPressesReverse(spot: Point)
    ensures var w := KeyDown(KeyDown(Initial.(status := Playing), "ArrowLeft"), "ArrowDown");
      && w.heading == Down
      && Advance(w, spot).status == GameOver
  {
    var w := KeyDown(KeyDown(Initial.(status := Playing), "ArrowLeft"), "ArrowDown");
    assert w.heading == Down && w.snake == Seed;
    assert Candidate(w) == (Point(7, 8), Down);
    assert Seed[..2][1] == Point(7, 8);
    assert Classify(w) == Crashed;
  }
}
