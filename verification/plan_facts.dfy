/** What the per-frame plan promises: which tiles each level places and in which order, how
    many instances each list receives, and where each list's entries come from. */
module PlanFacts {
  import opened Consts
  import opened Geometry
  import opened Placement

  /** Position of tile (x, y) in x-major, y-minor order. */
  function Key(p: (int, int)): int {
    4 * p.0 + p.1
  }

  predicate Increasing(s: seq<(int, int)>) {
    forall i, j :: 0 <= i < j < |s| ==> Key(s[i]) < Key(s[j])
  }

  /** Column x below row y holds exactly the unskipped rows below y, bottom to top. */
  lemma {:induction false} ColumnShape(level: nat, x: int, y: nat)
    requires y <= 4
    ensures forall p :: p in Column(level, x, y) <==> p.0 == x && 0 <= p.1 < y && !Skipped(level, x, p.1)
    ensures forall i, j :: 0 <= i < j < |Column(level, x, y)| ==> Column(level, x, y)[i].1 < Column(level, x, y)[j].1
  {
    if y > 0 {
      ColumnShape(level, x, y - 1);
      var c := Column(level, x, y - 1);
      assert forall i :: 0 <= i < |c| ==> c[i] in c;
    }
  }

  /** Column x loses its two middle rows exactly on the middle columns of a coarse level. */
  lemma ColumnLength(level: nat, x: int)
    ensures |Column(level, x, 4)| == if level != 0 && (x == 1 || x == 2) then 2 else 4
  {
    assert |Column(level, x, 1)| == 1;
    assert |Column(level, x, 2)| == if Skipped(level, x, 1) then 1 else 2;
    assert |Column(level, x, 3)| == if Skipped(level, x, 1) then 1 else 3;
  }

  /** The columns left of x hold exactly their unskipped tiles. */
  lemma {:induction false} GridMembers(level: nat, x: nat)
    requires x <= 4
    ensures forall p :: p in Grid(level, x) <==> 0 <= p.0 < x && 0 <= p.1 < 4 && !Skipped(level, p.0, p.1)
  {
    if x > 0 {
      GridMembers(level, x - 1);
      ColumnShape(level, x - 1, 4);
      assert Grid(level, x) == Grid(level, x - 1) + Column(level, x - 1, 4);
    }
  }

  /** Two increasing lists, every key of the first below b and every key of the second at
      least b, make an increasing list. */
  lemma ConcatIncreasing(g: seq<(int, int)>, c: seq<(int, int)>, b: int)
    requires Increasing(g) && Increasing(c)
    requires forall i :: 0 <= i < |g| ==> Key(g[i]) < b
    requires forall i :: 0 <= i < |c| ==> b <= Key(c[i])
    ensures Increasing(g + c)
  {
    forall i, j | 0 <= i < j < |g + c|
      ensures Key((g + c)[i]) < Key((g + c)[j])
    {
      if j < |g| {
        assert (g + c)[i] == g[i] && (g + c)[j] == g[j];
      } else if i >= |g| {
        assert (g + c)[i] == c[i - |g|] && (g + c)[j] == c[j - |g|];
      } else {
        assert (g + c)[i] == g[i] && (g + c)[j] == c[j - |g|];
      }
    }
  }

  /** The columns left of x list their tiles in x-major order. */
  lemma {:induction false} GridIncreasing(level: nat, x: nat)
    requires x <= 4
    ensures Increasing(Grid(level, x))
  {
    if x > 0 {
      GridIncreasing(level, x - 1);
      GridKeysBelow(level, x - 1);
      ColumnKeys(level, x - 1);
      ConcatIncreasing(Grid(level, x - 1), Column(level, x - 1, 4), 4 * (x - 1));
    }
  }

  lemma GridKeysBelow(level: nat, x: nat)
    requires x <= 4
    ensures forall i :: 0 <= i < |Grid(level, x)| ==> Key(Grid(level, x)[i]) < 4 * x
  {
    GridMembers(level, x);
    var g := Grid(level, x);
    assert forall i :: 0 <= i < |g| ==> g[i] in g;
  }

  lemma ColumnKeys(level: nat, x: nat)
    ensures Increasing(Column(level, x, 4))
    ensures forall i :: 0 <= i < |Column(level, x, 4)| ==> 4 * x <= Key(Column(level, x, 4)[i])
  {
    ColumnShape(level, x, 4);
    var c := Column(level, x, 4);
    assert forall i :: 0 <= i < |c| ==> c[i] in c;
  }

  /** `Grid` grows by whole columns. */
  lemma {:induction false} GridLength(level: nat, x: nat)
    requires x <= 4
    ensures |Grid(level, x)| == 4 * x - (if level != 0 && x >= 2 then (if x == 2 then 2 else 4) else 0)
  {
    if x > 0 {
      GridLength(level, x - 1);
      ColumnLength(level, x - 1);
    }
  }

  /** A level places every tile of its 4x4 grid except, on every level but the finest, the
      middle 2x2; it places them once each, x outer and y inner: 16 tiles on level 0 and 12
      on every other level. */
  lemma TileSlotsExact(level: nat)
    ensures forall p :: p in TileSlots(level) <==> 0 <= p.0 < 4 && 0 <= p.1 < 4 && !(level != 0 && p.0 in {1, 2} && p.1 in {1, 2})
    ensures Increasing(TileSlots(level))
    ensures |TileSlots(level)| == if level == 0 then 16 else 12
  {
    GridMembers(level, 4);
    GridIncreasing(level, 4);
    GridLength(level, 4);
  }

  // ---- The whole frame ---------------------------------------------------------

  /** The tiles of a level as (level, x, y), in push order. */
  function LevelSlots(level: nat): seq<(nat, int, int)> {
    var s := TileSlots(level);
    seq(|s|, i requires 0 <= i < |s| => (level, s[i].0, s[i].1))
  }

  /** The tiles of the first n levels as (level, x, y), in push order. */
  function FrameSlots(n: nat): seq<(nat, int, int)> {
    if n == 0 then [] else FrameSlots(n - 1) + LevelSlots(n - 1)
  }

  /** Position of tile (x, y) of a level in level-major, then x, then y order. */
  function FrameKey(t: (nat, int, int)): int {
    16 * t.0 + 4 * t.1 + t.2
  }

  /** Entry i of a level's tile list is the tile of its i-th slot. */
  lemma LevelTilesFollowSlots(cam: Vec2, level: nat)
    ensures |LevelTiles(cam, level)| == |TileSlots(level)|
    ensures forall i :: 0 <= i < |TileSlots(level)| ==>
      LevelTiles(cam, level)[i] == TileInstance(cam, level, TileSlots(level)[i].0, TileSlots(level)[i].1)
  {
  }

  /** Tile i of the first n levels is the tile of the i-th frame slot. */
  lemma {:induction false} FrameTiles(cam: Vec2, n: nat)
    ensures |FramePlan(cam, n).tile| == |FrameSlots(n)|
    ensures forall i :: 0 <= i < |FrameSlots(n)| ==>
      FramePlan(cam, n).tile[i] == TileInstance(cam, FrameSlots(n)[i].0, FrameSlots(n)[i].1, FrameSlots(n)[i].2)
  {
    if n > 0 {
      FrameTiles(cam, n - 1);
      LevelTilesFollowSlots(cam, n - 1);
      var prev, lt := FramePlan(cam, n - 1).tile, LevelTiles(cam, n - 1);
      var slots, ls := FrameSlots(n - 1), LevelSlots(n - 1);
      var all: seq<(nat, int, int)> := slots + ls;
      forall i | 0 <= i < |all|
        ensures (prev + lt)[i] == TileInstance(cam, all[i].0, all[i].1, all[i].2)
      {
        if i >= |prev| {
          assert (prev + lt)[i] == lt[i - |prev|];
          assert all[i] == ls[i - |slots|];
        } else {
          assert (prev + lt)[i] == prev[i];
          assert all[i] == slots[i];
        }
      }
    }
  }

  /** Filler l of the first n levels (the `fill` list of FramePlan(cam, n)) belongs to
      level l. */
  lemma {:induction false} FrameFillers(cam: Vec2, n: nat)
    ensures |FillersUpTo(cam, n)| == n
    ensures forall l: nat :: l < n ==> FillersUpTo(cam, n)[l] == FillerInstance(cam, l)
  {
    if n > 0 {
      FrameFillers(cam, n - 1);
      var prev, cur := FillersUpTo(cam, n - 1), FillersUpTo(cam, n);
      assert cur == prev + [FillerInstance(cam, n - 1)];
      forall l: nat | l < n
        ensures cur[l] == FillerInstance(cam, l)
      {
        if l < n - 1 {
          assert cur[l] == prev[l];
        }
      }
    }
  }

  /** Trim l (of the `trim` list of FramePlan(cam, n)) belongs to level l, for every level
      below the coarsest. */
  lemma {:induction false} FrameTrims(cam: Vec2, n: nat)
    ensures |TrimsUpTo(cam, n)| == if n < N_LEVELS then n else N_LEVELS - 1
    ensures forall l: nat :: l < |TrimsUpTo(cam, n)| ==> TrimsUpTo(cam, n)[l] == TrimInstance(cam, l)
  {
    if n > 0 {
      FrameTrims(cam, n - 1);
      var prev, cur := TrimsUpTo(cam, n - 1), TrimsUpTo(cam, n);
      if n - 1 < N_LEVELS - 1 {
        assert cur == prev + [TrimInstance(cam, n - 1)];
        forall l: nat | l < |cur|
          ensures cur[l] == TrimInstance(cam, l)
        {
          if l < |prev| {
            assert cur[l] == prev[l];
          }
        }
      } else {
        assert cur == prev;
      }
    }
  }

  /** Seam l (of the `seam` list of FramePlan(cam, n)) belongs to level l, for every level
      below the coarsest. */
  lemma {:induction false} FrameSeams(cam: Vec2, n: nat)
    ensures |SeamsUpTo(cam, n)| == if n < N_LEVELS then n else N_LEVELS - 1
    ensures forall l: nat :: l < |SeamsUpTo(cam, n)| ==> SeamsUpTo(cam, n)[l] == SeamInstance(cam, l)
  {
    if n > 0 {
      FrameSeams(cam, n - 1);
      var prev, cur := SeamsUpTo(cam, n - 1), SeamsUpTo(cam, n);
      if n - 1 < N_LEVELS - 1 {
        assert cur == prev + [SeamInstance(cam, n - 1)];
        forall l: nat | l < |cur|
          ensures cur[l] == SeamInstance(cam, l)
        {
          if l < |prev| {
            assert cur[l] == prev[l];
          }
        }
      } else {
        assert cur == prev;
      }
    }
  }

  /** Only level 0 places the cross. */
  lemma {:induction false} FrameCross(cam: Vec2, n: nat)
    ensures FramePlan(cam, n).cross == if n == 0 then [] else [CrossInstance(cam)]
  {
    if n > 0 {
      FrameCross(cam, n - 1);
    }
  }

  /** Every frame slot names a placed tile of a level below n. */
  lemma {:induction false} FrameSlotsPlaced(n: nat)
    ensures forall i :: 0 <= i < |FrameSlots(n)| ==>
      FrameSlots(n)[i].0 < n && (FrameSlots(n)[i].1, FrameSlots(n)[i].2) in TileSlots(FrameSlots(n)[i].0)
  {
    if n > 0 {
      FrameSlotsPlaced(n - 1);
      var a, b, s := FrameSlots(n - 1), LevelSlots(n - 1), TileSlots(n - 1);
      var all: seq<(nat, int, int)> := a + b;
      forall i | 0 <= i < |all|
        ensures all[i].0 < n && (all[i].1, all[i].2) in TileSlots(all[i].0)
      {
        if i >= |a| {
          assert all[i] == b[i - |a|];
          assert s[i - |a|] in s;
        } else {
          assert all[i] == a[i];
        }
      }
    }
  }

  /** A placed slot's (level, x, y) key lies in its level's block of sixteen. */
  lemma SlotKeyInLevel(level: nat, p: (int, int))
    requires p in TileSlots(level)
    ensures 16 * level <= FrameKey((level, p.0, p.1)) < 16 * level + 16
  {
    TileSlotsExact(level);
  }

  /** The frame slots run in strictly increasing (level, x, y) order, so tiles are pushed
      level by level, x outer and y inner, and no tile is placed twice. */
  lemma {:induction false} FrameSlotsIncreasing(n: nat)
    ensures forall i, j :: 0 <= i < j < |FrameSlots(n)| ==> FrameKey(FrameSlots(n)[i]) < FrameKey(FrameSlots(n)[j])
  {
    if n > 0 {
      FrameSlotsIncreasing(n - 1);
      FrameSlotsPlaced(n - 1);
      TileSlotsExact(n - 1);
      var a, b, s := FrameSlots(n - 1), LevelSlots(n - 1), TileSlots(n - 1);
      forall i, j | 0 <= i < j < |a + b|
        ensures FrameKey((a + b)[i]) < FrameKey((a + b)[j])
      {
        if i >= |a| {
          assert (a + b)[i] == b[i - |a|] && (a + b)[j] == b[j - |a|];
          assert Key(s[i - |a|]) < Key(s[j - |a|]);
        } else if j >= |a| {
          assert (a + b)[i] == a[i] && (a + b)[j] == b[j - |a|];
          SlotKeyInLevel(a[i].0, (a[i].1, a[i].2));
          assert s[j - |a|] in s;
          SlotKeyInLevel(n - 1, s[j - |a|]);
        } else {
          assert (a + b)[i] == a[i] && (a + b)[j] == a[j];
        }
      }
    }
  }

  /** The list lengths after n levels: 16 + 12·(n - 1) tiles, n fillers, one trim and one
      seam per level below the coarsest, and a single cross. */
  lemma {:induction false} FrameCounts(cam: Vec2, n: nat)
    ensures var p, inner := FramePlan(cam, n), if n < N_LEVELS then n else N_LEVELS - 1;
      && |p.tile| == (if n == 0 then 0 else 12 * n + 4) && |p.fill| == n
      && |p.trim| == inner && |p.seam| == inner && |p.cross| == (if n == 0 then 0 else 1)
  {
    if n > 0 {
      FrameCounts(cam, n - 1);
      TileSlotsExact(n - 1);
      LevelTilesFollowSlots(cam, n - 1);
    }
  }

  /** A full frame places 124 tiles, 10 fillers, 9 trims, one cross and 9 seams, which fits
      every instance buffer; only the tile buffer (160) has room to spare. */
  lemma FrameFitsBuffers(cam: Vec2)
    ensures var p := FramePlan(cam, N_LEVELS);
      && |p.tile| == 124 && |p.fill| == 10 && |p.trim| == 9 && |p.cross| == 1 && |p.seam| == 9
      && |p.tile| < N_TILES && |p.fill| == N_FILLERS && |p.trim| == N_TRIMS
      && |p.cross| == N_CROSS && |p.seam| == N_SEAMS
  {
    FrameCounts(cam, N_LEVELS);
  }

  /** The cross and the finest filler share a transform: both sit at the finest level's
      snapped camera with the finest scale. */
  lemma CrossMatchesFinestFiller(cam: Vec2)
    ensures FramePlan(cam, N_LEVELS).cross == [FramePlan(cam, N_LEVELS).fill[0]]
  {
    FrameFillers(cam, N_LEVELS);
    FrameCross(cam, N_LEVELS);
  }
}
