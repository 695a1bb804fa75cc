/**
 * The path generator: a cursor (position and axis-aligned heading) and a
 * FIFO window of placed tiles. Every spawn places a tile at the cursor,
 * rotates the heading if the tile turns, then advances the cursor by the
 * tile length along the new heading. Randomness is an explicit Draw per
 * spawn: the two numbers Math.random() would have returned, in call order.
 */
module MapGeneration {
  import opened Wrappers
  import opened Vectors
  import opened TileTypes

  /** Distance below which the player is "near" the cursor. */
  const NearDistance: real := 40.0

  /** The two random numbers one spawn draws: the tile type roll, then the turn roll. */
  datatype Draw = Draw(tileRoll: real, turnRoll: real)

  /** The generator's mutable state: cursor position, heading and tile window (oldest first). */
  datatype Gen = Gen(pos: Vec3, dir: Vec3, tiles: seq<PlacedTile>)

  /** The state of a freshly loaded generator: origin, heading -Z, no tiles. */
  const Initial: Gen := Gen(Origin, MinusZ, [])

  // ---------------------------------------------------------------------
  // Random choices as threshold functions

  /** 60% NORMAL, 20% GAP, 20% BUILDABLE on a uniform roll in [0, 1); never COLLECTIBLE. */
  function ChooseTileType(r: real): (t: TileType)
    ensures t != Collectible
    ensures t == Normal <==> r < 0.6
    ensures t == Gap <==> 0.6 <= r < 0.8
    ensures t == Buildable <==> 0.8 <= r
  {
    if r < 0.6 then Normal
    else if r < 0.8 then Gap
    else Buildable
  }

  /** 96% NONE, 2% LEFT, 2% RIGHT on a uniform roll in [0, 1). */
  function ChooseTurn(r: real): (t: TurnDirection)
    ensures t == NoTurn <==> r < 0.96
    ensures t == Left <==> 0.96 <= r < 0.98
    ensures t == Right <==> 0.98 <= r
  {
    if r < 0.96 then NoTurn
    else if r < 0.98 then Left
    else Right
  }

  // ---------------------------------------------------------------------
  // Heading algebra

  /** The generator's left turn of the heading. */
  function TurnLeft(d: Vec3): (r: Vec3)
    ensures d == MinusZ ==> r == PlusX
    ensures d == PlusX ==> r == PlusZ
    ensures d == PlusZ ==> r == MinusX
    ensures d == MinusX ==> r == MinusZ
  {
    if d.z != 0 then Vec3(-d.z, 0, 0) else Vec3(0, 0, d.x)
  }

  /** The generator's right turn of the heading. */
  function TurnRight(d: Vec3): (r: Vec3)
    ensures d == MinusZ ==> r == MinusX
    ensures d == MinusX ==> r == PlusZ
    ensures d == PlusZ ==> r == PlusX
    ensures d == PlusX ==> r == MinusZ
  {
    if d.z != 0 then Vec3(d.z, 0, 0) else Vec3(0, 0, -d.x)
  }

  /**
   * Each turn maps an axis unit vector to another axis unit vector that
   * is neither the same nor the opposite one: a quarter turn.
   */
  lemma TurnsAreQuarterTurns(d: Vec3)
    requires IsAxis(d)
    ensures IsAxis(TurnLeft(d)) && TurnLeft(d) != d && TurnLeft(d) != Scale(-1, d)
    ensures IsAxis(TurnRight(d)) && TurnRight(d) != d && TurnRight(d) != Scale(-1, d)
  {
  }

  /** The heading after a tile with turn t. */
  function Turn(d: Vec3, t: TurnDirection): (r: Vec3)
    ensures IsAxis(d) ==> IsAxis(r)
    ensures t == NoTurn ==> r == d
  {
    match t
    case NoTurn => d
    case Left => TurnLeft(d)
    case Right => TurnRight(d)
  }

  lemma TurnsUndoEachOther(d: Vec3)
    requires IsAxis(d)
    ensures TurnRight(TurnLeft(d)) == d
    ensures TurnLeft(TurnRight(d)) == d
  {
  }

  lemma FourTurnsAreIdentity(d: Vec3)
    requires IsAxis(d)
    ensures TurnLeft(TurnLeft(TurnLeft(TurnLeft(d)))) == d
    ensures TurnRight(TurnRight(TurnRight(TurnRight(d)))) == d
    ensures TurnLeft(TurnLeft(d)) == TurnRight(TurnRight(d)) == Vec3(-d.x, -d.y, -d.z)
  {
  }

  // ---------------------------------------------------------------------
  // One spawn, one recycle, one update, as functions on the state

  /** A fresh instance's activity: NORMAL shown, GAP hidden, BUILDABLE (and COLLECTIBLE) as the prefab. */
  function Activity(kind: TileType, prefab: Prefab): bool {
    match kind
    case Normal => true
    case Gap => false
    case _ => prefab.active
  }

  /** The spawn of one tile with draw d: a no-op without a prefab. */
  function Spawn(g: Gen, prefab: Option<Prefab>, len: int, d: Draw): (r: Gen)
    ensures prefab.None? ==> r == g
    ensures prefab.Some? ==>
      && |r.tiles| == |g.tiles| + 1
      && r.tiles[..|g.tiles|] == g.tiles
      && r.tiles[|g.tiles|].position == g.pos
      && r.tiles[|g.tiles|].kind == ChooseTileType(d.tileRoll)
      && r.tiles[|g.tiles|].turn == ChooseTurn(d.turnRoll)
      && r.dir == Turn(g.dir, ChooseTurn(d.turnRoll))
      && r.pos == Add(g.pos, Scale(len, r.dir))
    ensures prefab.Some? && r.tiles[|g.tiles|].kind == Normal ==> r.tiles[|g.tiles|].active
    ensures prefab.Some? && r.tiles[|g.tiles|].kind == Gap ==> !r.tiles[|g.tiles|].active
    ensures prefab.Some? && r.tiles[|g.tiles|].kind == Buildable ==>
      r.tiles[|g.tiles|].active == prefab.value.active
  {
    match prefab
    case None => g
    case Some(p) =>
      var kind := ChooseTileType(d.tileRoll);
      var turn := ChooseTurn(d.turnRoll);
      var dir := Turn(g.dir, turn);
      Gen(Add(g.pos, Scale(len, dir)), dir, g.tiles + [PlacedTile(g.pos, kind, turn, Activity(kind, p))])
  }

  /** Evict the oldest tile when the window holds more than n tiles. */
  function Recycle(g: Gen, n: nat): (r: Gen)
    ensures r.pos == g.pos && r.dir == g.dir
    ensures |g.tiles| > n ==> r.tiles == g.tiles[1..]
    ensures |g.tiles| <= n ==> r == g
  {
    if |g.tiles| > n then g.(tiles := g.tiles[1..]) else g
  }

  /** The spawns of a pre-spawn loop, draw by draw, in order. */
  function SpawnMany(g: Gen, prefab: Option<Prefab>, len: int, draws: seq<Draw>): Gen
    decreases |draws|
  {
    if draws == [] then g
    else Spawn(SpawnMany(g, prefab, len, draws[..|draws| - 1]), prefab, len, draws[|draws| - 1])
  }

  /** The player is nearer than 40 units to the cursor (squared, to avoid the square root). */
  predicate Near(player: RVec3, cursor: Vec3) {
    SquaredDistance(player, ToReal(cursor)) < NearDistance * NearDistance
  }

  /** One frame's update: with a player near the cursor, one spawn and one recycle. */
  function UpdateStep(g: Gen, prefab: Option<Prefab>, len: int, n: nat, player: Option<RVec3>, d: Draw): Gen {
    match player
    case None => g
    case Some(p) => if Near(p, g.pos) then Recycle(Spawn(g, prefab, len, d), n) else g
  }

  /** One frame: the player's position (None without a player) and the draw a spawn would use. */
  datatype Frame = Frame(player: Option<RVec3>, draw: Draw)

  /** Successive frames' updates. */
  function RunUpdates(g: Gen, prefab: Option<Prefab>, len: int, n: nat, frames: seq<Frame>): Gen
    decreases |frames|
  {
    if frames == [] then g
    else RunUpdates(UpdateStep(g, prefab, len, n, frames[0].player, frames[0].draw), prefab, len, n, frames[1..])
  }

  // ---------------------------------------------------------------------
  // The window invariant: the tiles form a chain of axis steps ending at the cursor

  ghost predicate Chained(g: Gen, len: int) {
    && IsAxis(g.dir)
    && (|g.tiles| > 0 ==> Add(g.tiles[|g.tiles| - 1].position, Scale(len, g.dir)) == g.pos)
    && forall i :: 0 <= i < |g.tiles| - 1 ==> Adjacent(g.tiles[i].position, g.tiles[i + 1].position, len)
  }

  lemma SpawnKeepsChained(g: Gen, prefab: Option<Prefab>, len: int, d: Draw)
    requires Chained(g, len)
    ensures Chained(Spawn(g, prefab, len, d), len)
  {
    if prefab.Some? {
      var r := Spawn(g, prefab, len, d);
      forall i | 0 <= i < |r.tiles| - 1
        ensures Adjacent(r.tiles[i].position, r.tiles[i + 1].position, len)
      {
        if i < |g.tiles| - 1 {
          assert r.tiles[i] == g.tiles[i] && r.tiles[i + 1] == g.tiles[i + 1];
        } else {
          assert r.tiles[i] == g.tiles[|g.tiles| - 1];
        }
      }
    }
  }

  lemma RecycleKeepsChained(g: Gen, len: int, n: nat)
    requires Chained(g, len)
    ensures Chained(Recycle(g, n), len)
  {
    if |g.tiles| > n {
      var r := Recycle(g, n);
      forall i | 0 <= i < |r.tiles| - 1
        ensures Adjacent(r.tiles[i].position, r.tiles[i + 1].position, len)
      {
        assert r.tiles[i] == g.tiles[i + 1] && r.tiles[i + 1] == g.tiles[i + 2];
      }
    }
  }

  lemma {:induction false} SpawnManyKeepsChained(g: Gen, prefab: Option<Prefab>, len: int, draws: seq<Draw>)
    requires Chained(g, len)
    ensures Chained(SpawnMany(g, prefab, len, draws), len)
    decreases |draws|
  {
    if draws != [] {
      SpawnManyKeepsChained(g, prefab, len, draws[..|draws| - 1]);
      SpawnKeepsChained(SpawnMany(g, prefab, len, draws[..|draws| - 1]), prefab, len, draws[|draws| - 1]);
    }
  }

  /** The heading never leaves the four axis unit vectors, whatever the draws. */
  lemma {:induction false} HeadingStaysOnAxis(g: Gen, prefab: Option<Prefab>, len: int, draws: seq<Draw>)
    requires IsAxis(g.dir)
    ensures IsAxis(SpawnMany(g, prefab, len, draws).dir)
    decreases |draws|
  {
    if draws != [] {
      HeadingStaysOnAxis(g, prefab, len, draws[..|draws| - 1]);
    }
  }

  lemma {:induction false} UpdatesKeepChained(g: Gen, prefab: Option<Prefab>, len: int, n: nat, frames: seq<Frame>)
    requires Chained(g, len)
    ensures Chained(RunUpdates(g, prefab, len, n, frames), len)
    decreases |frames|
  {
    if frames != [] {
      var g' := UpdateStep(g, prefab, len, n, frames[0].player, frames[0].draw);
      if frames[0].player.Some? && Near(frames[0].player.value, g.pos) {
        SpawnKeepsChained(g, prefab, len, frames[0].draw);
        RecycleKeepsChained(Spawn(g, prefab, len, frames[0].draw), len, n);
      }
      UpdatesKeepChained(g', prefab, len, n, frames[1..]);
    }
  }

  // ---------------------------------------------------------------------
  // The steering invariant: every step follows the headings the stored turns select

  /** The heading after the turns of these tiles, oldest first, starting from heading h. */
  function HeadingAfter(h: Vec3, tiles: seq<PlacedTile>): Vec3
    decreases |tiles|
  {
    if tiles == [] then h
    else Turn(HeadingAfter(h, tiles[..|tiles| - 1]), tiles[|tiles| - 1].turn)
  }

  lemma {:induction false} HeadingAfterOnAxis(h: Vec3, tiles: seq<PlacedTile>)
    requires IsAxis(h)
    ensures IsAxis(HeadingAfter(h, tiles))
    decreases |tiles|
  {
    if tiles != [] {
      HeadingAfterOnAxis(h, tiles[..|tiles| - 1]);
    }
  }

  /** Folding the turns from h equals folding the rest from h turned by the first tile. */
  lemma {:induction false} HeadingAfterShift(h: Vec3, tiles: seq<PlacedTile>)
    requires |tiles| > 0
    ensures HeadingAfter(h, tiles) == HeadingAfter(Turn(h, tiles[0].turn), tiles[1..])
    decreases |tiles|
  {
    if |tiles| > 1 {
      var init := tiles[..|tiles| - 1];
      HeadingAfterShift(h, init);
      assert init[1..] == tiles[1..][..|tiles[1..]| - 1];
      assert init[0] == tiles[0];
    } else {
      assert tiles[..0] == [] && tiles[1..] == [];
    }
  }

  /**
   * The window starting with heading h before its oldest tile: the heading
   * out of tile i is h turned by the turns of tiles 0..i, each step goes
   * one tile length along that heading, and the cursor heading is the one
   * all the turns select.
   */
  ghost predicate Steered(g: Gen, len: int, h: Vec3) {
    && g.dir == HeadingAfter(h, g.tiles)
    && (|g.tiles| > 0 ==> Add(g.tiles[|g.tiles| - 1].position, Scale(len, g.dir)) == g.pos)
    && forall i :: 0 <= i < |g.tiles| - 1 ==>
         g.tiles[i + 1].position == Add(g.tiles[i].position, Scale(len, HeadingAfter(h, g.tiles[..i + 1])))
  }

  lemma SpawnKeepsSteered(g: Gen, prefab: Option<Prefab>, len: int, d: Draw, h: Vec3)
    requires Steered(g, len, h)
    ensures Steered(Spawn(g, prefab, len, d), len, h)
  {
    if prefab.Some? {
      var r := Spawn(g, prefab, len, d);
      assert r.tiles[..|r.tiles| - 1] == g.tiles;
      forall i | 0 <= i < |r.tiles| - 1
        ensures r.tiles[i + 1].position == Add(r.tiles[i].position, Scale(len, HeadingAfter(h, r.tiles[..i + 1])))
      {
        assert r.tiles[..i + 1] == g.tiles[..i + 1];
        if i < |g.tiles| - 1 {
          assert r.tiles[i] == g.tiles[i] && r.tiles[i + 1] == g.tiles[i + 1];
        } else {
          assert g.tiles[..i + 1] == g.tiles;
          assert r.tiles[i] == g.tiles[|g.tiles| - 1];
        }
      }
    }
  }

  lemma RecycleKeepsSteered(g: Gen, len: int, n: nat, h: Vec3)
    requires Steered(g, len, h)
    ensures Steered(Recycle(g, n), len, if |g.tiles| > n then Turn(h, g.tiles[0].turn) else h)
  {
    if |g.tiles| > n {
      var r := Recycle(g, n);
      var h' := Turn(h, g.tiles[0].turn);
      HeadingAfterShift(h, g.tiles);
      forall i | 0 <= i < |r.tiles| - 1
        ensures r.tiles[i + 1].position == Add(r.tiles[i].position, Scale(len, HeadingAfter(h', r.tiles[..i + 1])))
      {
        var s := g.tiles[..i + 2];
        HeadingAfterShift(h, s);
        assert s[1..] == r.tiles[..i + 1];
        assert r.tiles[i] == g.tiles[i + 1] && r.tiles[i + 1] == g.tiles[i + 2];
      }
    }
  }

  lemma {:induction false} SpawnManyKeepsSteered(g: Gen, prefab: Option<Prefab>, len: int, draws: seq<Draw>, h: Vec3)
    requires Steered(g, len, h)
    ensures Steered(SpawnMany(g, prefab, len, draws), len, h)
    decreases |draws|
  {
    if draws != [] {
      SpawnManyKeepsSteered(g, prefab, len, draws[..|draws| - 1], h);
      SpawnKeepsSteered(SpawnMany(g, prefab, len, draws[..|draws| - 1]), prefab, len, draws[|draws| - 1], h);
    }
  }

  /** Across any frames the window stays steered, from the heading before its new oldest tile. */
  lemma {:induction false} UpdatesKeepSteered(g: Gen, prefab: Option<Prefab>, len: int, n: nat, frames: seq<Frame>, h: Vec3)
    returns (h': Vec3)
    requires IsAxis(h) && Steered(g, len, h)
    ensures IsAxis(h') && Steered(RunUpdates(g, prefab, len, n, frames), len, h')
    decreases |frames|
  {
    h' := h;
    if frames != [] {
      var g' := UpdateStep(g, prefab, len, n, frames[0].player, frames[0].draw);
      var h1 := h;
      if frames[0].player.Some? && Near(frames[0].player.value, g.pos) {
        var s := Spawn(g, prefab, len, frames[0].draw);
        SpawnKeepsSteered(g, prefab, len, frames[0].draw, h);
        RecycleKeepsSteered(s, len, n, h);
        h1 := if |s.tiles| > n then Turn(h, s.tiles[0].turn) else h;
      }
      h' := UpdatesKeepSteered(g', prefab, len, n, frames[1..], h1);
    }
  }

  /**
   * The path never steps straight back: with a non-zero tile length, the
   * tile two steps on never stands where a tile stood.
   */
  lemma NoStepBack(g: Gen, len: int, h: Vec3, i: int)
    requires IsAxis(h) && Steered(g, len, h) && len != 0
    requires 0 <= i < |g.tiles| - 2
    ensures g.tiles[i + 2].position != g.tiles[i].position
  {
    var e1 := HeadingAfter(h, g.tiles[..i + 1]);
    var e2 := HeadingAfter(h, g.tiles[..i + 2]);
    assert g.tiles[..i + 2][..i + 1] == g.tiles[..i + 1];
    assert e2 == Turn(e1, g.tiles[i + 1].turn);
    HeadingAfterOnAxis(h, g.tiles[..i + 1]);
    TurnsAreQuarterTurns(e1);
    var p := g.tiles[i].position;
    assert g.tiles[i + 1].position == Add(p, Scale(len, e1));
    assert g.tiles[i + 2].position == Add(Add(p, Scale(len, e1)), Scale(len, e2));
    assert IsAxis(e2) && e2 != Scale(-1, e1);
  }

  // ---------------------------------------------------------------------
  // Straight runs, generated kinds, the boot window

  /**
   * With a run of NONE turns the heading is unchanged and the new anchors
   * lie on one line, len apart, starting at the cursor.
   */
  lemma {:induction false} StraightRun(g: Gen, prefab: Option<Prefab>, len: int, draws: seq<Draw>)
    requires prefab.Some?
    requires forall k :: 0 <= k < |draws| ==> ChooseTurn(draws[k].turnRoll) == NoTurn
    ensures var r := SpawnMany(g, prefab, len, draws);
      && r.dir == g.dir
      && r.pos == Add(g.pos, Scale(|draws| * len, g.dir))
      && |r.tiles| == |g.tiles| + |draws|
      && r.tiles[..|g.tiles|] == g.tiles
      && forall i :: 0 <= i < |draws| ==> r.tiles[|g.tiles| + i].position == Add(g.pos, Scale(i * len, g.dir))
    decreases |draws|
  {
    if draws != [] {
      var n := |draws| - 1;
      var prev := SpawnMany(g, prefab, len, draws[..n]);
      StraightRun(g, prefab, len, draws[..n]);
      var r := Spawn(prev, prefab, len, draws[n]);
      assert r == SpawnMany(g, prefab, len, draws);
      assert r.dir == g.dir;
      calc {
        r.pos;
        Add(prev.pos, Scale(len, g.dir));
        Add(Add(g.pos, Scale(n * len, g.dir)), Scale(len, g.dir));
        { AddAssoc(g.pos, Scale(n * len, g.dir), Scale(len, g.dir)); ScaleAdd(n * len, len, g.dir); }
        Add(g.pos, Scale(n * len + len, g.dir));
        { assert n * len + len == |draws| * len; }
        Add(g.pos, Scale(|draws| * len, g.dir));
      }
      assert r.tiles[..|g.tiles|] == prev.tiles[..|prev.tiles|][..|g.tiles|];
      forall i | 0 <= i < |draws|
        ensures r.tiles[|g.tiles| + i].position == Add(g.pos, Scale(i * len, g.dir))
      {
        if i < n {
          assert r.tiles[|g.tiles| + i] == prev.tiles[|g.tiles| + i];
        }
      }
    }
  }

  predicate NoCollectible(tiles: seq<PlacedTile>) {
    forall i :: 0 <= i < |tiles| ==> tiles[i].kind != Collectible
  }

  /** A window that holds no COLLECTIBLE tile never gains one. */
  lemma {:induction false} NeverCollectible(g: Gen, prefab: Option<Prefab>, len: int, draws: seq<Draw>)
    requires NoCollectible(g.tiles)
    ensures NoCollectible(SpawnMany(g, prefab, len, draws).tiles)
    decreases |draws|
  {
    if draws != [] {
      var prev := SpawnMany(g, prefab, len, draws[..|draws| - 1]);
      NeverCollectible(g, prefab, len, draws[..|draws| - 1]);
      var r := Spawn(prev, prefab, len, draws[|draws| - 1]);
      assert r == SpawnMany(g, prefab, len, draws);
      if prefab.Some? {
        forall i | 0 <= i < |r.tiles| ensures r.tiles[i].kind != Collectible {
          if i < |prev.tiles| {
            assert r.tiles[i] == prev.tiles[i];
          } else {
            assert r.tiles[i].kind == ChooseTileType(draws[|draws| - 1].tileRoll);
          }
        }
      }
    }
  }

  /**
   * The window a pre-spawn loop builds from any state: with a prefab,
   * one tile per draw appended after the earlier tiles, the i-th new
   * tile of the kind and turn that draw i selects; without one, nothing.
   */
  lemma {:induction false} SpawnManyWindow(g: Gen, prefab: Option<Prefab>, len: int, draws: seq<Draw>)
    ensures var r := SpawnMany(g, prefab, len, draws);
      && (prefab.None? ==> r == g)
      && (prefab.Some? ==>
        && |r.tiles| == |g.tiles| + |draws|
        && r.tiles[..|g.tiles|] == g.tiles
        && forall i :: 0 <= i < |draws| ==>
             r.tiles[|g.tiles| + i].kind == ChooseTileType(draws[i].tileRoll) &&
             r.tiles[|g.tiles| + i].turn == ChooseTurn(draws[i].turnRoll))
    decreases |draws|
  {
    if draws != [] {
      var n := |draws| - 1;
      var prev := SpawnMany(g, prefab, len, draws[..n]);
      SpawnManyWindow(g, prefab, len, draws[..n]);
      if prefab.Some? {
        var r := Spawn(prev, prefab, len, draws[n]);
        assert r.tiles[..|g.tiles|] == prev.tiles[..|prev.tiles|][..|g.tiles|];
        forall i | 0 <= i < |draws|
          ensures r.tiles[|g.tiles| + i].kind == ChooseTileType(draws[i].tileRoll)
          ensures r.tiles[|g.tiles| + i].turn == ChooseTurn(draws[i].turnRoll)
        {
          if i < n {
            assert r.tiles[|g.tiles| + i] == prev.tiles[|g.tiles| + i];
            assert draws[..n][i] == draws[i];
          }
        }
      }
    }
  }

  /**
   * The boot (and reset) window: with a prefab, exactly one tile per
   * draw, the first anchored at the origin, chained, no COLLECTIBLE.
   */
  lemma BootWindow(prefab: Option<Prefab>, len: int, draws: seq<Draw>)
    ensures var r := SpawnMany(Initial, prefab, len, draws);
      && Chained(r, len)
      && |r.tiles| == (if prefab.Some? then |draws| else 0)
      && NoCollectible(r.tiles)
      && (|r.tiles| > 0 ==> r.tiles[0].position == Origin)
      && Steered(r, len, MinusZ)
  {
    SpawnManyKeepsChained(Initial, prefab, len, draws);
    SpawnManyKeepsSteered(Initial, prefab, len, draws, MinusZ);
    SpawnManyWindow(Initial, prefab, len, draws);
    NeverCollectible(Initial, prefab, len, draws);
    if prefab.Some? && |draws| > 0 {
      FirstTileAtCursor(Initial, prefab, len, draws);
    }
  }

  /** With a prefab, the first tile a pre-spawn loop adds stands at the cursor it started from. */
  lemma {:induction false} FirstTileAtCursor(g: Gen, prefab: Option<Prefab>, len: int, draws: seq<Draw>)
    requires prefab.Some? && |draws| > 0
    ensures var r := SpawnMany(g, prefab, len, draws);
      |r.tiles| > |g.tiles| && r.tiles[|g.tiles|].position == g.pos
    decreases |draws|
  {
    var n := |draws| - 1;
    if n > 0 {
      FirstTileAtCursor(g, prefab, len, draws[..n]);
    } else {
      assert draws[..n] == [];
    }
  }

  // ---------------------------------------------------------------------
  // The window length under updates

  /** With a prefab, a window of exactly n tiles keeps exactly n tiles across any number of frames. */
  lemma {:induction false} WindowStaysFull(g: Gen, prefab: Option<Prefab>, len: int, n: nat, frames: seq<Frame>)
    requires prefab.Some?
    requires |g.tiles| == n
    ensures |RunUpdates(g, prefab, len, n, frames).tiles| == n
    decreases |frames|
  {
    if frames != [] {
      WindowStaysFull(UpdateStep(g, prefab, len, n, frames[0].player, frames[0].draw), prefab, len, n, frames[1..]);
    }
  }

  /** A near update removes exactly the oldest tile of a full window and appends the new one. */
  lemma NearUpdateShiftsWindow(g: Gen, prefab: Option<Prefab>, len: int, n: nat, p: RVec3, d: Draw)
    requires prefab.Some? && |g.tiles| == n && n > 0
    requires Near(p, g.pos)
    ensures var r := UpdateStep(g, prefab, len, n, Some(p), d);
      r.tiles == g.tiles[1..] + [Spawn(g, prefab, len, d).tiles[n]]
  {
    var s := Spawn(g, prefab, len, d);
    assert s.tiles == g.tiles + [s.tiles[n]];
  }

  /**
   * From boot onward (with a prefab), every frame leaves exactly
   * preSpawnCount tiles, chained and steered by their stored turns.
   */
  lemma BootThenUpdates(prefab: Option<Prefab>, len: int, n: nat, draws: seq<Draw>, frames: seq<Frame>)
    requires prefab.Some? && |draws| == n
    ensures var r := RunUpdates(SpawnMany(Initial, prefab, len, draws), prefab, len, n, frames);
      && |r.tiles| == n && Chained(r, len)
      && exists h :: IsAxis(h) && Steered(r, len, h)
  {
    var boot := SpawnMany(Initial, prefab, len, draws);
    BootWindow(prefab, len, draws);
    WindowStaysFull(boot, prefab, len, n, frames);
    UpdatesKeepChained(boot, prefab, len, n, frames);
    var h := UpdatesKeepSteered(boot, prefab, len, n, frames, MinusZ);
    assert IsAxis(h) && Steered(RunUpdates(boot, prefab, len, n, frames), len, h);
  }

  /** Five spawns with the same draw, unfolded. */
  lemma SpawnFive(g: Gen, prefab: Option<Prefab>, len: int, d: Draw)
    ensures SpawnMany(g, prefab, len, [d, d, d, d, d])
         == Spawn(Spawn(Spawn(Spawn(Spawn(g, prefab, len, d), prefab, len, d), prefab, len, d), prefab, len, d), prefab, len, d)
  {
    assert [d, d, d, d, d][..4] == [d, d, d, d];
    assert [d, d, d, d][..3] == [d, d, d];
    assert [d, d, d][..2] == [d, d];
    assert [d, d][..1] == [d];
    assert [d][..0] == [];
    var g1 := Spawn(g, prefab, len, d);
    var g2 := Spawn(g1, prefab, len, d);
    var g3 := Spawn(g2, prefab, len, d);
    assert SpawnMany(g, prefab, len, [d]) == g1;
    assert SpawnMany(g, prefab, len, [d, d]) == g2;
    assert SpawnMany(g, prefab, len, [d, d, d]) == g3;
    assert SpawnMany(g, prefab, len, [d, d, d, d]) == Spawn(g3, prefab, len, d);
  }

  /** Four spawns turning the same way from the initial state bring the cursor back to the origin. */
  lemma FourTurnsCloseSquare(prefab: Option<Prefab>, len: int, d: Draw)
    requires prefab.Some?
    requires ChooseTurn(d.turnRoll) != NoTurn
    ensures var g4 := Spawn(Spawn(Spawn(Spawn(Initial, prefab, len, d), prefab, len, d), prefab, len, d), prefab, len, d);
      g4.pos == Origin && |g4.tiles| == 4 && g4.tiles[0].position == Origin
  {
    var g1 := Spawn(Initial, prefab, len, d);
    var g2 := Spawn(g1, prefab, len, d);
    var g3 := Spawn(g2, prefab, len, d);
    var g4 := Spawn(g3, prefab, len, d);
    if ChooseTurn(d.turnRoll) == Left {
      assert g1.dir == PlusX && g1.pos == Vec3(len, 0, 0);
      assert g2.dir == PlusZ && g2.pos == Vec3(len, 0, len);
      assert g3.dir == MinusX && g3.pos == Vec3(0, 0, len);
    } else {
      assert g1.dir == MinusX && g1.pos == Vec3(-len, 0, 0);
      assert g2.dir == PlusZ && g2.pos == Vec3(-len, 0, len);
      assert g3.dir == PlusX && g3.pos == Vec3(0, 0, len);
    }
    assert g4.tiles[0] == g3.tiles[0] == g2.tiles[0] == g1.tiles[0];
  }

  /**
   * The path may pass through an earlier anchor: four successive turns
   * the same way, LEFT or RIGHT, bring the cursor back to where the first
   * of them stood, so the fifth tile shares the first one's position.
   */
  lemma PathCanRevisitAnchor(prefab: Option<Prefab>, len: int, d: Draw)
    requires prefab.Some?
    requires ChooseTurn(d.turnRoll) != NoTurn
    ensures var r := SpawnMany(Initial, prefab, len, [d, d, d, d, d]);
      |r.tiles| == 5 && r.tiles[4].position == r.tiles[0].position
  {
    SpawnFive(Initial, prefab, len, d);
    FourTurnsCloseSquare(prefab, len, d);
    var g4 := Spawn(Spawn(Spawn(Spawn(Initial, prefab, len, d), prefab, len, d), prefab, len, d), prefab, len, d);
    var g5 := Spawn(g4, prefab, len, d);
    assert g5.tiles[4].position == g4.pos && g5.tiles[0] == g4.tiles[0];
  }

  // ---------------------------------------------------------------------
  // The component

  class MapGenerator {
    /** Editor configuration, never reassigned by the component. */
    const tilePrefab: Option<Prefab>
    const tileLength: int
    const preSpawnCount: nat

    var direction: Vec3
    var currentPos: Vec3
    var tiles: seq<PlacedTile>

    function State(): Gen
      reads this
    {
      Gen(currentPos, direction, tiles)
    }

    ghost predicate Valid()
      reads this
    {
      Chained(State(), tileLength)
    }

    constructor (tilePrefab: Option<Prefab>, tileLength: int, preSpawnCount: nat)
      ensures this.tilePrefab == tilePrefab && this.tileLength == tileLength && this.preSpawnCount == preSpawnCount
      ensures State() == Initial
      ensures Valid()
    {
      this.tilePrefab := tilePrefab;
      this.tileLength := tileLength;
      this.preSpawnCount := preSpawnCount;
      direction := MinusZ;
      currentPos := Origin;
      tiles := [];
    }

    /** Place one tile at the cursor, turn, then advance the cursor along the new heading. */
    method SpawnTile(d: Draw)
      requires Valid()
      modifies this
      ensures Valid()
      ensures State() == Spawn(old(State()), tilePrefab, tileLength, d)
    {
      SpawnKeepsChained(State(), tilePrefab, tileLength, d);
      if tilePrefab.None? {
        return;
      }
      var kind := ChooseTileType(d.tileRoll);
      var turn := ChooseTurn(d.turnRoll);
      var placedAt := currentPos;
      match turn {
        case Left => direction := TurnLeft(direction);
        case Right => direction := TurnRight(direction);
        case NoTurn =>
      }
      currentPos := Add(currentPos, Scale(tileLength, direction));
      var active := tilePrefab.value.active;
      match kind {
        case Normal => active := true;
        case Gap => active := false;
        case _ =>
      }
      tiles := tiles + [PlacedTile(placedAt, kind, turn, active)];
    }

    /** Drop the oldest tile once the window exceeds the pre-spawn count. */
    method RecycleTile()
      requires Valid()
      modifies this
      ensures Valid()
      ensures State() == Recycle(old(State()), preSpawnCount)
    {
      RecycleKeepsChained(State(), tileLength, preSpawnCount);
      if |tiles| > preSpawnCount {
        tiles := tiles[1..];
      }
    }

    /** The pre-spawn loop run when the component loads. */
    method OnLoad(draws: seq<Draw>)
      requires Valid()
      requires |draws| == preSpawnCount
      modifies this
      ensures Valid()
      ensures State() == SpawnMany(old(State()), tilePrefab, tileLength, draws)
    {
      PreSpawn(draws);
    }

    /** Clear the window, restore origin and heading -Z, and pre-spawn again. */
    method Reset(draws: seq<Draw>)
      requires |draws| == preSpawnCount
      modifies this
      ensures Valid()
      ensures State() == SpawnMany(Initial, tilePrefab, tileLength, draws)
    {
      tiles := [];
      currentPos := Origin;
      direction := MinusZ;
      PreSpawn(draws);
    }

    /** preSpawnCount spawns, one draw each. */
    method PreSpawn(draws: seq<Draw>)
      requires Valid()
      requires |draws| == preSpawnCount
      modifies this
      ensures Valid()
      ensures State() == SpawnMany(old(State()), tilePrefab, tileLength, draws)
    {
      ghost var start := State();
      for i := 0 to preSpawnCount
        invariant Valid()
        invariant State() == SpawnMany(start, tilePrefab, tileLength, draws[..i])
      {
        SpawnTile(draws[i]);
        assert draws[..i + 1][..i] == draws[..i];
      }
      assert draws[..preSpawnCount] == draws;
    }

    /** One frame: with a player nearer than 40 units to the cursor, spawn one tile and recycle one. */
    method Update(player: Option<RVec3>, d: Draw)
      requires Valid()
      modifies this
      ensures Valid()
      ensures State() == UpdateStep(old(State()), tilePrefab, tileLength, preSpawnCount, player, d)
    {
      if player.None? {
        return;
      }
      if Near(player.value, currentPos) {
        SpawnTile(d);
        RecycleTile();
      }
    }
  }
}
