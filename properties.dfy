/** Properties of the tick, the frame gate and whole sessions of frames. */
module Properties {
  import opened Constants
  import opened Types
  import opened Rules

  lemma DistinctCons(x: Point, s: seq<Point>)
    requires Distinct(s) && x !in s
    ensures Distinct([x] + s)
  {
    var t := [x] + s;
    forall i, j | 0 <= i < j < |t| ensures t[i] != t[j] {
      if i == 0 {
        assert t[j] == s[j - 1];
      } else {
        assert t[i] == s[i - 1] && t[j] == s[j - 1];
      }
    }
  }

  /** The relocated cell is drawn off the exclusion list of the tick. */
  predicate FreeSpot(w: World, spot: Point)
    requires |w.snake| >= 1
  {
    Relocates(w) ==> InGrid(spot) && spot !in Relocation(w)
  }

  /**
   * After the grown snake, a relocation's exclusion list holds exactly the man
   * and the two items not picked up.
   */
  lemma ExclusionHoldsOtherItems(s: World, h: Point)
    requires ItemsPlaced(s) && (h == s.matcha || h == s.toilet || h == s.bed)
    ensures var tail := PickupExclusion(s, h)[|s.snake| + 1..];
      && |tail| == 3
      && forall c :: c in tail <==> c != h && (c == s.matcha || c == s.toilet || c == s.bed || c == s.man)
  {
    var ex := PickupExclusion(s, h);
    var tail := ex[|s.snake| + 1..];
    if h == s.matcha {
      assert tail == [s.toilet, s.bed, s.man];
    } else if h == s.toilet {
      assert tail == [s.matcha, s.bed, s.man];
    } else {
      assert tail == [s.matcha, s.toilet, s.man];
    }
  }

  /** A cell off an exclusion list differs from each of its parts. */
  lemma OffExclusion(spot: Point, h: Point, s: seq<Point>, a: Point, b: Point, c: Point)
    requires spot !in [h] + s + [a, b, c]
    ensures spot != h && spot !in s && spot != a && spot != b && spot != c
  {
    var ex := [h] + s + [a, b, c];
    assert ex[0] == h && ex[|s| + 1] == a && ex[|s| + 2] == b && ex[|s| + 3] == c;
    forall i | 0 <= i < |s| ensures s[i] != spot {
      assert ex[i + 1] == s[i];
    }
  }

  /** Adding a safe head to a well-formed snake, with or without dropping the tail, keeps it well formed. */
  lemma StepKeepsSnake(s: seq<Point>, h: Point, grow: bool)
    requires SnakeWellFormed(s) && InGrid(h) && h !in s[..|s| - 1] && (grow ==> h !in s)
    ensures SnakeWellFormed(if grow then [h] + s else [h] + s[..|s| - 1])
    ensures forall x :: x in (if grow then [h] + s else [h] + s[..|s| - 1]) ==> x == h || x in s
  {
    var body := if grow then s else s[..|s| - 1];
    assert forall i :: 0 <= i < |body| ==> body[i] == s[i];
    assert Distinct(body);
    DistinctCons(h, body);
    var t := [h] + body;
    assert forall i :: 1 <= i < |t| ==> t[i] == body[i - 1];
  }

  /** The conditions under which moveSnake reaches the item checks with head `h`. */
  predicate SafePickup(s: World, h: Point, spot: Point)
    requires |s.snake| >= 1
  {
    && Inv(s) && InGrid(h) && h !in s.snake[..|s.snake| - 1] && h != s.man
    && (PickupDraws(s, h) ==> InGrid(spot) && spot !in PickupExclusion(s, h))
  }

  /** The item checks keep the invariant. */
  lemma PickupKeepsInv(s: World, h: Point, spot: Point)
    requires |s.snake| >= 1 && SafePickup(s, h, spot)
    ensures Inv(Pickup(s, h, spot))
  {
    if h == s.matcha {
      if s.count + 1 < HEART_GOAL {
        MatchaKeepsInv(s, h, spot);
      }
    } else if h == s.toilet {
      ToiletKeepsInv(s, h, spot);
    } else if h == s.bed {
      BedKeepsInv(s, h, spot);
    } else {
      StepKeepsSnake(s.snake, h, false);
    }
  }

  lemma MatchaKeepsInv(s: World, h: Point, spot: Point)
    requires |s.snake| >= 1 && SafePickup(s, h, spot) && h == s.matcha && s.count + 1 < HEART_GOAL
    ensures Inv(Pickup(s, h, spot))
  {
    StepKeepsSnake(s.snake, h, true);
    OffExclusion(spot, h, s.snake, s.toilet, s.bed, s.man);
  }

  lemma ToiletKeepsInv(s: World, h: Point, spot: Point)
    requires |s.snake| >= 1 && SafePickup(s, h, spot) && h != s.matcha && h == s.toilet
    ensures Inv(Pickup(s, h, spot))
  {
    StepKeepsSnake(s.snake, h, false);
    OffExclusion(spot, h, s.snake, s.matcha, s.bed, s.man);
  }

  lemma BedKeepsInv(s: World, h: Point, spot: Point)
    requires |s.snake| >= 1 && SafePickup(s, h, spot) && h != s.matcha && h != s.toilet && h == s.bed
    ensures Inv(Pickup(s, h, spot))
  {
    StepKeepsSnake(s.snake, h, false);
    OffExclusion(spot, h, s.snake, s.matcha, s.toilet, s.man);
  }

  /**
   * Every tick keeps the invariant: the snake stays a list of distinct grid
   * cells, the items stay distinct and off it, the score stays non-negative and
   * below the goal while playing, and the interval stays within its bounds.
   */
  lemma AdvanceKeepsInv(w: World, spot: Point)
    requires Inv(w) && FreeSpot(w, spot)
    ensures Inv(Advance(w, spot))
  {
    if !w.isFrozen {
      var h := Candidate(w).0;
      if !HitsWallOrSelf(w.snake, h) && h != w.man {
        PickupKeepsInv(Steered(w), h, spot);
      }
    }
  }

  /** Under the invariant the head is never on the man, so every tick's candidate is the neighbour in the new heading. */
  lemma StepIsOneCell(w: World)
    requires Inv(w)
    ensures Candidate(w).0 == Move(w.snake[0], Candidate(w).1)
    ensures Manhattan(w.snake[0], Candidate(w).0) == 1
  {
    assert w.snake[0] in w.snake;
  }

  // ---------------------------------------------------------------------------
  // Sessions: a run of animation frames, each with its time and the cell a
  // relocation in that frame would draw.

  function Session(w: World, frames: seq<(int, Point)>): (r: World)
    requires |w.snake| >= 1
    ensures |r.snake| >= |w.snake|
    decreases |frames|
  {
    if frames == [] then w
    else Session(FrameStep(w, frames[0].0, frames[0].1), frames[1..])
  }

  /** Every relocation in the session draws a cell off its exclusion list. */
  predicate FreeDraws(w: World, frames: seq<(int, Point)>)
    requires |w.snake| >= 1
    decreases |frames|
  {
    || frames == []
    || (&& (FrameTicks(w, frames[0].0) ==> FreeSpot(w, frames[0].1))
        && FreeDraws(FrameStep(w, frames[0].0, frames[0].1), frames[1..]))
  }

  /** The invariant holds after any session whose draws avoid their exclusion lists. */
  lemma {:induction false} SessionKeepsInv(w: World, frames: seq<(int, Point)>)
    requires Inv(w) && FreeDraws(w, frames)
    ensures Inv(Session(w, frames))
    decreases |frames|
  {
    if frames != [] {
      var t, p := frames[0].0, frames[0].1;
      if FrameTicks(w, t) {
        AdvanceKeepsInv(w, p);
      }
      SessionKeepsInv(FrameStep(w, t, p), frames[1..]);
    }
  }

  /** The tick interval never increases during a session and never drops below MIN_SPEED. */
  lemma {:induction false} SessionSpeedNeverRises(w: World, frames: seq<(int, Point)>)
    requires |w.snake| >= 1 && w.speed >= MIN_SPEED
    ensures MIN_SPEED <= Session(w, frames).speed <= w.speed
    decreases |frames|
  {
    if frames != [] {
      SessionSpeedNeverRises(FrameStep(w, frames[0].0, frames[0].1), frames[1..]);
    }
  }

  /** Once the game is not being played, frames change nothing (until a reset). */
  lemma {:induction false} SessionStopsWhenNotPlaying(w: World, frames: seq<(int, Point)>)
    requires |w.snake| >= 1 && w.status != Playing
    ensures Session(w, frames) == w
    decreases |frames|
  {
    if frames != [] {
      SessionStopsWhenNotPlaying(FrameStep(w, frames[0].0, frames[0].1), frames[1..]);
    }
  }

  /** Frames never enter PLAYING; from PLAYING they can only end in GAMEOVER, GAMEOVER_MAN or WON. */
  lemma {:induction false} SessionStatus(w: World, frames: seq<(int, Point)>)
    requires |w.snake| >= 1
    ensures var s := Session(w, frames).status;
      s == w.status || (w.status == Playing && (s == GameOver || s == GameOverMan || s == Won))
    decreases |frames|
  {
    if frames != [] {
      var next := FrameStep(w, frames[0].0, frames[0].1);
      SessionStatus(next, frames[1..]);
      if next.status != Playing {
        SessionStopsWhenNotPlaying(next, frames[1..]);
      }
    }
  }
}
