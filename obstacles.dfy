/** The obstacle field of game_mode1.py, as values: the difficulty table,
    where new obstacles may appear, how a spawn adds them without
    duplicates, which obstacles survive culling around the player, the
    collision test and the frame throttle of the movement sampler. The
    GameMode1 object that applies them is in module GameModes. */
module Obstacles {
  import opened Common
  import opened ScrollGrid

  datatype Colour = Colour(r: int, g: int, b: int)

  /** The colour of every spawned obstacle, `(230, 10, 20)`. */
  const ObstacleColour := Colour(230, 10, 20)

  /** A Tile record: a tile index and a colour. */
  datatype Tile = Tile(pos: Cell, colour: Colour)

  /** A Player record: radius, pixel position and current movement. The
      colour is left out. */
  datatype Player = Player(size: real, pos: Vec, movement: Vec)

  // ---------------------------------------------------------------------
  // Difficulty (game_mode1.py:67-72)

  /** Python's `str.upper` on ASCII letters. */
  function UpperChar(c: char): char {
    if 'a' <= c <= 'z' then (c as int - 32) as char else c
  }

  function Upper(s: string): string {
    if s == [] then [] else [UpperChar(s[0])] + Upper(s[1..])
  }

  lemma {:induction false} UpperIdempotent(s: string)
    ensures |Upper(s)| == |s|
    ensures Upper(Upper(s)) == Upper(s)
  {
    if s != [] {
      UpperIdempotent(s[1..]);
      assert Upper(s)[1..] == Upper(s[1..]);
    }
  }

  /** setup_difficulty: the spawn density of a difficulty name, looked up
      after upper-casing it; None where Python raises KeyError. */
  function SpawnAmountFor(difficulty: string): (r: Option<real>)
    ensures r.Some? <==> Upper(difficulty) in {"EASY", "NORMAL", "HARD"}
    ensures r.Some? ==> 0.0 < r.value < 1.0
  {
    var key := Upper(difficulty);
    if key == "EASY" then Some(0.1)
    else if key == "NORMAL" then Some(0.25)
    else if key == "HARD" then Some(0.4)
    else None
  }

  /** The lookup ignores case. */
  lemma DifficultyCaseInsensitive(d: string)
    ensures SpawnAmountFor(Upper(d)) == SpawnAmountFor(d)
  {
    UpperIdempotent(d);
  }

  /** The three names give 0.1, 0.25 and 0.4, the harder the denser, in any
      case; any other name fails. */
  lemma DifficultyTable()
    ensures SpawnAmountFor("easy") == Some(0.1)
    ensures SpawnAmountFor("Normal") == Some(0.25)
    ensures SpawnAmountFor("HARD") == Some(0.4)
    ensures SpawnAmountFor("") == None
  {
    assert Upper("y") == "Y";
    assert Upper("sy") == "SY";
    assert Upper("asy") == "ASY";
    assert Upper("easy") == "EASY";
    assert Upper("l") == "L";
    assert Upper("al") == "AL";
    assert Upper("mal") == "MAL";
    assert Upper("rmal") == "RMAL";
    assert Upper("ormal") == "ORMAL";
    assert Upper("Normal") == "NORMAL";
    assert Upper("D") == "D";
    assert Upper("RD") == "RD";
    assert Upper("ARD") == "ARD";
    assert Upper("HARD") == "HARD";
  }

  // ---------------------------------------------------------------------
  // Spawn positions (game_mode1.py:153-162)

  /** The upper bound of `random.randint(1, ...)` for the number of new
      obstacles: the box height times the density, in whole tiles. */
  function MaxSpawnCount(b: Box, spawnAmount: real): int
    requires b.tileHeight > 0
  {
    (((b.maxY - b.minY) as real * spawnAmount) / b.tileHeight as real).Floor
  }

  /** The rows `random.randint` may choose: within three line heights, in
      tiles, of the player's row. */
  predicate RowsAllowed(b: Box, pos: Cell, rows: seq<int>)
    requires b.tileHeight > 0
  {
    var ny := b.lineHeight / b.tileHeight;
    forall k :: 0 <= k < |rows| ==> pos.y - 3 * ny <= rows[k] <= pos.y + 3 * ny
  }

  /** generate_obstacle_positions, with the random choices as `rows`: one
      column a line width (in tiles) right of `pos`, one obstacle per chosen
      row. Python's randint raises ValueError when the bound is below 1, so
      the count must lie between 1 and MaxSpawnCount. */
  function GenerateObstaclePositions(b: Box, spawnAmount: real, pos: Cell, rows: seq<int>): (r: seq<Cell>)
    requires b.tileWidth > 0 && b.tileHeight > 0
    requires 1 <= |rows| <= MaxSpawnCount(b, spawnAmount) && RowsAllowed(b, pos, rows)
    ensures 1 <= |r| <= MaxSpawnCount(b, spawnAmount)
    ensures forall k :: 0 <= k < |r| ==>
      && r[k].x == pos.x + b.lineWidth / b.tileWidth
      && pos.y - 3 * (b.lineHeight / b.tileHeight) <= r[k].y <= pos.y + 3 * (b.lineHeight / b.tileHeight)
  {
    var nx := b.lineWidth / b.tileWidth;
    seq(|rows|, k requires 0 <= k < |rows| => Cell(pos.x + nx, rows[k]))
  }

  // ---------------------------------------------------------------------
  // Spawning (game_mode1.py:164-175)

  function Positions(ts: seq<Tile>): seq<Cell> {
    seq(|ts|, k requires 0 <= k < |ts| => ts[k].pos)
  }

  predicate NoDup<T(==)>(s: seq<T>) {
    forall i, j :: 0 <= i < j < |s| ==> s[i] != s[j]
  }

  /** One pass of the inner for/else loop: append a tile unless one already
      has the position. */
  function AddIfNew(ts: seq<Tile>, p: Cell): seq<Tile> {
    if p in Positions(ts) then ts else ts + [Tile(p, ObstacleColour)]
  }

  /** The outer loop of generate_obstacles over the positions, in order;
      tiles appended earlier in the same call are checked too. */
  function AddNew(ts: seq<Tile>, ps: seq<Cell>): seq<Tile> {
    if ps == [] then ts else AddIfNew(AddNew(ts, ps[..|ps| - 1]), ps[|ps| - 1])
  }

  /** generate_obstacles: nothing happens when the column of the first
      position was already summoned; otherwise the new positions are added
      and the column recorded. Python raises IndexError on no positions. */
  function GenerateStep(obstacles: seq<Tile>, summoned: seq<int>, positions: seq<Cell>): (seq<Tile>, seq<int>)
    requires |positions| > 0
  {
    if positions[0].x in summoned then (obstacles, summoned)
    else (AddNew(obstacles, positions), summoned + [positions[0].x])
  }

  lemma PositionsAppend(ts: seq<Tile>, t: Tile)
    ensures Positions(ts + [t]) == Positions(ts) + [t.pos]
  {
  }

  /** Adding the positions keeps the old tiles first and in order, appends
      only red tiles at given positions, leaves every given position
      occupied, and keeps positions unique. */
  lemma {:induction false} AddNewSpec(ts: seq<Tile>, ps: seq<Cell>)
    ensures |ts| <= |AddNew(ts, ps)| && AddNew(ts, ps)[..|ts|] == ts
    ensures forall k :: |ts| <= k < |AddNew(ts, ps)| ==>
      AddNew(ts, ps)[k].colour == ObstacleColour && AddNew(ts, ps)[k].pos in ps
    ensures forall c :: c in Positions(AddNew(ts, ps)) <==> c in Positions(ts) || c in ps
    ensures NoDup(Positions(ts)) ==> NoDup(Positions(AddNew(ts, ps)))
  {
    if ps != [] {
      var init := ps[..|ps| - 1];
      var p := ps[|ps| - 1];
      var mid := AddNew(ts, init);
      AddNewSpec(ts, init);
      assert ps == init + [p];
      if p !in Positions(mid) {
        PositionsAppend(mid, Tile(p, ObstacleColour));
        var r := mid + [Tile(p, ObstacleColour)];
        assert r[..|ts|] == mid[..|ts|];
        forall k | |ts| <= k < |r|
          ensures r[k].colour == ObstacleColour && r[k].pos in ps
        {
          if k < |mid| {
            assert r[k] == mid[k];
          }
        }
        if NoDup(Positions(ts)) {
          var pr := Positions(r);
          forall i, j | 0 <= i < j < |pr| ensures pr[i] != pr[j] {
            if j == |pr| - 1 {
              assert pr[i] == Positions(mid)[i];
            } else {
              assert pr[i] == Positions(mid)[i] && pr[j] == Positions(mid)[j];
            }
          }
        }
      }
    }
  }

  /** generate_obstacles records the column exactly when it is new, and then
      exactly once more than before; a known column changes nothing. */
  lemma GenerateSpec(obstacles: seq<Tile>, summoned: seq<int>, positions: seq<Cell>)
    requires |positions| > 0
    ensures positions[0].x in summoned ==> GenerateStep(obstacles, summoned, positions) == (obstacles, summoned)
    ensures positions[0].x !in summoned ==>
      && GenerateStep(obstacles, summoned, positions).1 == summoned + [positions[0].x]
      && multiset(GenerateStep(obstacles, summoned, positions).1)[positions[0].x] == 1
    ensures |obstacles| <= |GenerateStep(obstacles, summoned, positions).0|
    ensures GenerateStep(obstacles, summoned, positions).0[..|obstacles|] == obstacles
    ensures NoDup(Positions(obstacles)) ==> NoDup(Positions(GenerateStep(obstacles, summoned, positions).0))
  {
    AddNewSpec(obstacles, positions);
    if positions[0].x !in summoned {
      assert multiset(summoned)[positions[0].x] == 0;
    }
  }

  // ---------------------------------------------------------------------
  // Culling (game_mode1.py:177-214)

  /** The window kept around the player's tile: three line widths (in tiles)
      either side horizontally, three line heights vertically, edges
      included. */
  predicate InWindow(p: Cell, centre: Cell, nx: int, ny: int) {
    centre.x - 3 * nx <= p.x <= centre.x + 3 * nx && centre.y - 3 * ny <= p.y <= centre.y + 3 * ny
  }

  /** The obstacles clear_obstacles keeps, in order. */
  function Inside(ts: seq<Tile>, centre: Cell, nx: int, ny: int): seq<Tile> {
    if ts == [] then []
    else Inside(ts[..|ts| - 1], centre, nx, ny)
         + (if InWindow(ts[|ts| - 1].pos, centre, nx, ny) then [ts[|ts| - 1]] else [])
  }

  /** The columns of the obstacles clear_obstacles removes, in order,
      whichever of the four edges each one is beyond. */
  function OutsideColumns(ts: seq<Tile>, centre: Cell, nx: int, ny: int): seq<int> {
    if ts == [] then []
    else OutsideColumns(ts[..|ts| - 1], centre, nx, ny)
         + (if InWindow(ts[|ts| - 1].pos, centre, nx, ny) then [] else [ts[|ts| - 1].pos.x])
  }

  /** `obstacle_summoned.remove(x)` for each column in turn, a missing
      column ignored (the `except ValueError: pass`). */
  function DropColumns(summoned: seq<int>, xs: seq<int>): seq<int> {
    if xs == [] then summoned else RemoveFirst(DropColumns(summoned, xs[..|xs| - 1]), xs[|xs| - 1])
  }

  /** clear_obstacles: the new obstacle list and the new summoned list. */
  function ClearStep(obstacles: seq<Tile>, summoned: seq<int>, centre: Cell, nx: int, ny: int): (seq<Tile>, seq<int>) {
    (Inside(obstacles, centre, nx, ny), DropColumns(summoned, OutsideColumns(obstacles, centre, nx, ny)))
  }

  /** Culling one more obstacle of a list: how the survivors and the culled
      columns of a prefix grow by one element. */
  lemma CullOneMore(ts: seq<Tile>, k: int, centre: Cell, nx: int, ny: int)
    requires 0 <= k < |ts|
    ensures InWindow(ts[k].pos, centre, nx, ny) ==>
      && Inside(ts[..k + 1], centre, nx, ny) == Inside(ts[..k], centre, nx, ny) + [ts[k]]
      && OutsideColumns(ts[..k + 1], centre, nx, ny) == OutsideColumns(ts[..k], centre, nx, ny)
    ensures !InWindow(ts[k].pos, centre, nx, ny) ==>
      && Inside(ts[..k + 1], centre, nx, ny) == Inside(ts[..k], centre, nx, ny)
      && OutsideColumns(ts[..k + 1], centre, nx, ny) == OutsideColumns(ts[..k], centre, nx, ny) + [ts[k].pos.x]
  {
    assert ts[..k + 1][..k] == ts[..k];
    assert Inside(ts[..k], centre, nx, ny) + [] == Inside(ts[..k], centre, nx, ny);
    assert OutsideColumns(ts[..k], centre, nx, ny) + [] == OutsideColumns(ts[..k], centre, nx, ny);
  }

  /** Dropping one more column. */
  lemma DropOneMore(summoned: seq<int>, xs: seq<int>, x: int)
    ensures DropColumns(summoned, xs + [x]) == RemoveFirst(DropColumns(summoned, xs), x)
  {
    assert (xs + [x])[..|xs|] == xs;
  }

  /** Culling keeps exactly the obstacles inside the window: each survivor
      is inside and was there before, each obstacle inside survives, and
      culling a concatenation culls each part, so the survivors keep their
      order. */
  lemma {:induction false} InsideSpec(ts: seq<Tile>, centre: Cell, nx: int, ny: int)
    ensures forall t :: t in Inside(ts, centre, nx, ny) <==> t in ts && InWindow(t.pos, centre, nx, ny)
    ensures |Inside(ts, centre, nx, ny)| + |OutsideColumns(ts, centre, nx, ny)| == |ts|
  {
    if ts != [] {
      InsideSpec(ts[..|ts| - 1], centre, nx, ny);
      assert ts == ts[..|ts| - 1] + [ts[|ts| - 1]];
    }
  }

  /** Culling is a filter, so it keeps obstacle positions unique. */
  lemma {:induction false} InsideNoDup(ts: seq<Tile>, centre: Cell, nx: int, ny: int)
    ensures NoDup(Positions(ts)) ==> NoDup(Positions(Inside(ts, centre, nx, ny)))
  {
    if ts != [] && NoDup(Positions(ts)) {
      var init, last := ts[..|ts| - 1], ts[|ts| - 1];
      assert NoDup(Positions(init)) by {
        forall i, j | 0 <= i < j < |init| ensures init[i].pos != init[j].pos {
          assert Positions(ts)[i] != Positions(ts)[j];
        }
      }
      InsideNoDup(init, centre, nx, ny);
      var mid := Inside(init, centre, nx, ny);
      if InWindow(last.pos, centre, nx, ny) {
        InsideSpec(init, centre, nx, ny);
        assert last.pos !in Positions(mid) by {
          forall k | 0 <= k < |mid| ensures mid[k].pos != last.pos {
            assert mid[k] in init;
            var i :| 0 <= i < |init| && init[i] == mid[k];
            assert Positions(ts)[i] != Positions(ts)[|ts| - 1];
          }
        }
        PositionsAppend(mid, last);
        assert Inside(ts, centre, nx, ny) == mid + [last];
        var pr := Positions(mid + [last]);
        forall i, j | 0 <= i < j < |pr| ensures pr[i] != pr[j] {
          if j == |pr| - 1 {
            assert pr[i] == Positions(mid)[i];
          } else {
            assert pr[i] == Positions(mid)[i] && pr[j] == Positions(mid)[j];
          }
        }
      } else {
        assert Inside(ts, centre, nx, ny) == mid + [];
        assert Inside(ts, centre, nx, ny) == mid;
      }
    }
  }

  lemma {:induction false} InsideConcat(a: seq<Tile>, b: seq<Tile>, centre: Cell, nx: int, ny: int)
    ensures Inside(a + b, centre, nx, ny) == Inside(a, centre, nx, ny) + Inside(b, centre, nx, ny)
    ensures OutsideColumns(a + b, centre, nx, ny) == OutsideColumns(a, centre, nx, ny) + OutsideColumns(b, centre, nx, ny)
    decreases |b|
  {
    if b != [] {
      var b' := b[..|b| - 1];
      assert (a + b)[..|a + b| - 1] == a + b';
      assert (a + b)[|a + b| - 1] == b[|b| - 1];
      InsideConcat(a, b', centre, nx, ny);
    } else {
      assert a + b == a;
    }
  }

  /** When every obstacle is inside the window nothing is culled. */
  lemma {:induction false} InsideAll(ts: seq<Tile>, centre: Cell, nx: int, ny: int)
    requires forall k :: 0 <= k < |ts| ==> InWindow(ts[k].pos, centre, nx, ny)
    ensures Inside(ts, centre, nx, ny) == ts && OutsideColumns(ts, centre, nx, ny) == []
  {
    if ts != [] {
      InsideAll(ts[..|ts| - 1], centre, nx, ny);
      assert ts == ts[..|ts| - 1] + [ts[|ts| - 1]];
    }
  }

  /** The summoned list loses one copy of the column of each culled
      obstacle, as far as there is one. */
  lemma {:induction false} DropColumnsMultiset(summoned: seq<int>, xs: seq<int>)
    ensures multiset(DropColumns(summoned, xs)) == multiset(summoned) - multiset(xs)
  {
    if xs != [] {
      var init := xs[..|xs| - 1];
      var x := xs[|xs| - 1];
      DropColumnsMultiset(summoned, init);
      RemoveFirstMultiset(DropColumns(summoned, init), x);
      assert xs == init + [x];
      assert multiset(xs) == multiset(init) + multiset{x};
      MinusAssoc(multiset(summoned), multiset(init), x);
    }
  }

  lemma MinusAssoc(m: multiset<int>, i: multiset<int>, x: int)
    ensures (m - i) - multiset{x} == m - (i + multiset{x})
  {
    forall y
      ensures ((m - i) - multiset{x})[y] == (m - (i + multiset{x}))[y]
    {
    }
  }

  /** Freshly generated positions, spawned around the player's tile, lie in
      that tile's culling window: a spawn survives the culling that follows
      it in the same frame. */
  lemma SpawnSurvivesCulling(b: Box, spawnAmount: real, pos: Cell, rows: seq<int>)
    requires b.tileWidth > 0 && b.tileHeight > 0 && b.lineWidth >= 0
    requires 1 <= |rows| <= MaxSpawnCount(b, spawnAmount) && RowsAllowed(b, pos, rows)
    ensures forall c :: c in GenerateObstaclePositions(b, spawnAmount, pos, rows) ==>
      InWindow(c, pos, b.lineWidth / b.tileWidth, b.lineHeight / b.tileHeight)
  {
  }

  // ---------------------------------------------------------------------
  // Collisions (game_mode1.py:216-228)

  /** The square of side `2r` around the player's centre `p` (the box
      enclosing its circle, not the circle itself) overlaps the tile whose
      top-left pixel is `corner`: the negation of the four `continue` tests.
      The left and top comparisons are strict, the right and bottom ones
      are not. */
  predicate Hit(corner: Vec, p: Vec, r: real, tileWidth: int, tileHeight: int) {
    && p.x + r > corner.x && p.x - r <= corner.x + tileWidth as real
    && p.y + r > corner.y && p.y - r <= corner.y + tileHeight as real
  }

  /** check_collisions: the loop over the obstacles with its four
      `continue` tests; True on the first hit, False (Python's None) when
      the loop falls through. */
  function CheckCollisions(obstacles: seq<Tile>, p: Vec, r: real, tileWidth: int, tileHeight: int, shift: Vec): bool {
    if obstacles == [] then false
    else
      var c := PosToCoordinates(obstacles[0].pos, tileWidth, tileHeight, shift);
      if p.x + r <= c.x then CheckCollisions(obstacles[1..], p, r, tileWidth, tileHeight, shift)
      else if p.x - r > c.x + tileWidth as real then CheckCollisions(obstacles[1..], p, r, tileWidth, tileHeight, shift)
      else if p.y + r <= c.y then CheckCollisions(obstacles[1..], p, r, tileWidth, tileHeight, shift)
      else if p.y - r > c.y + tileHeight as real then CheckCollisions(obstacles[1..], p, r, tileWidth, tileHeight, shift)
      else true
  }

  /** check_collisions answers True exactly when some obstacle is hit. */
  lemma {:induction false} CheckCollisionsIff(obstacles: seq<Tile>, p: Vec, r: real, tileWidth: int, tileHeight: int, shift: Vec)
    ensures CheckCollisions(obstacles, p, r, tileWidth, tileHeight, shift) <==>
      exists k :: 0 <= k < |obstacles| &&
        Hit(PosToCoordinates(obstacles[k].pos, tileWidth, tileHeight, shift), p, r, tileWidth, tileHeight)
  {
    if obstacles != [] {
      var tail := obstacles[1..];
      CheckCollisionsIff(tail, p, r, tileWidth, tileHeight, shift);
      if exists k :: 0 <= k < |obstacles| &&
          Hit(PosToCoordinates(obstacles[k].pos, tileWidth, tileHeight, shift), p, r, tileWidth, tileHeight) {
        var k :| 0 <= k < |obstacles| &&
          Hit(PosToCoordinates(obstacles[k].pos, tileWidth, tileHeight, shift), p, r, tileWidth, tileHeight);
        if k > 0 {
          assert obstacles[k] == tail[k - 1];
        }
      }
      if exists k :: 0 <= k < |tail| &&
          Hit(PosToCoordinates(tail[k].pos, tileWidth, tileHeight, shift), p, r, tileWidth, tileHeight) {
        var k :| 0 <= k < |tail| &&
          Hit(PosToCoordinates(tail[k].pos, tileWidth, tileHeight, shift), p, r, tileWidth, tileHeight);
        assert tail[k] == obstacles[k + 1];
      }
    }
  }

  /** The asymmetric edges: a player whose square just touches a tile's left
      or top edge does not collide with it; one that just touches its right
      or bottom edge, overlapping it along the other axis, does. */
  lemma TouchingEdges(corner: Vec, p: Vec, r: real, tileWidth: int, tileHeight: int)
    requires tileWidth > 0 && tileHeight > 0 && r > 0.0
    ensures p.x + r == corner.x ==> !Hit(corner, p, r, tileWidth, tileHeight)
    ensures p.y + r == corner.y ==> !Hit(corner, p, r, tileWidth, tileHeight)
    ensures p.x - r == corner.x + tileWidth as real && corner.y < p.y + r && p.y - r <= corner.y + tileHeight as real ==>
      Hit(corner, p, r, tileWidth, tileHeight)
    ensures p.y - r == corner.y + tileHeight as real && corner.x < p.x + r && p.x - r <= corner.x + tileWidth as real ==>
      Hit(corner, p, r, tileWidth, tileHeight)
  {
  }

  // ---------------------------------------------------------------------
  // Movement sampling (game_mode1.py:257-266)

  /** The speed of the player, `MOVEMENT_SPEED`. */
  const MovementSpeed := 10

  /** The frame counter of get_movement: the new counter and whether the
      sensor is read on this call. */
  function ThrottleStep(counter: int, everyN: int): (int, bool) {
    if counter + 1 <= everyN then (counter + 1, false) else (0, true)
  }

  /** The counter after `k` calls. */
  function Throttled(counter: int, everyN: int, k: nat): int {
    if k == 0 then counter else ThrottleStep(Throttled(counter, everyN, k - 1), everyN).0
  }

  /** Calls compose: `a + b` calls are `a` calls followed by `b`. */
  lemma {:induction false} ThrottledAdd(counter: int, everyN: int, a: nat, b: nat)
    ensures Throttled(counter, everyN, a + b) == Throttled(Throttled(counter, everyN, a), everyN, b)
  {
    if b > 0 {
      ThrottledAdd(counter, everyN, a, b - 1);
    }
  }

  /** From a counter `c` not above `everyN`, the next `everyN - c` calls
      return the held movement and count up; the call after them reads the
      sensor and sets the counter back to 0. */
  lemma {:induction false} ThrottleHolds(c: int, everyN: int, j: nat)
    requires 0 <= c && c + j <= everyN
    ensures Throttled(c, everyN, j) == c + j
    ensures forall i: nat :: i < j ==> !ThrottleStep(Throttled(c, everyN, i), everyN).1
    ensures c + j == everyN ==> ThrottleStep(Throttled(c, everyN, j), everyN) == (0, true)
  {
    if j > 0 {
      ThrottleHolds(c, everyN, j - 1);
    }
  }

  /** Starting from a fresh counter, the sensor is read on every
      `(everyN + 1)`-th call and on no other: after `q` full cycles and `r`
      more calls the counter is `r`, and the next call reads exactly when
      `r == everyN`. */
  lemma {:induction false} ThrottleCycle(everyN: nat, q: nat, r: nat)
    requires r <= everyN
    ensures Throttled(0, everyN, q * (everyN + 1) + r) == r
    ensures ThrottleStep(Throttled(0, everyN, q * (everyN + 1) + r), everyN).1 <==> r == everyN
  {
    var n := everyN + 1;
    if q == 0 {
      ThrottleHolds(0, everyN, r);
    } else {
      ThrottleCycle(everyN, q - 1, everyN);
      assert (q - 1) * n + everyN + 1 == q * n;
      ThrottledAdd(0, everyN, (q - 1) * n + everyN, 1);
      ThrottledAdd(0, everyN, q * n, r);
      ThrottleHolds(0, everyN, r);
    }
  }

  /** A sampled movement is vertical and at most the movement speed in
      size, because the percentage lies in [-1, 1]. */
  lemma SampledMovementBounded(p: real)
    requires -1.0 <= p <= 1.0
    ensures var m := Vec(0.0, MovementSpeed as real * p); m.x == 0.0 && -10.0 <= m.y <= 10.0
  {
  }
}
