/** Moving circular targets: creation, respawn with random attributes, and
    the per-tick move with its wall bounces. */
module Targets {
  import opened Constants

  /** The fields of a target at one moment. */
  datatype TargetState = TargetState(x: real, y: real, r: int, vx: real, vy: real, live: int, color: Color)

  predicate IsWhole(a: real) {
    a == a.Floor as real
  }

  /** What `new_target` can produce: a whole-number position in
      [600, 780) x [200, 550), a whole radius in [4, 50), vx one of
      1/4 .. 4/4, vy one of 5/5 .. 14/5, alive and red. */
  predicate Spawned(s: TargetState) {
    && IsWhole(s.x) && 600.0 <= s.x < 780.0
    && IsWhole(s.y) && 200.0 <= s.y < 550.0
    && 4 <= s.r < 50
    && IsWhole(4.0 * s.vx) && 1.0 <= 4.0 * s.vx <= 4.0
    && IsWhole(5.0 * s.vy) && 5.0 <= 5.0 * s.vy <= 14.0
    && s.live == 1 && s.color == Red
  }

  /** The state `new_target` builds from its five random draws. */
  function Spawn(px: int, py: int, pr: int, pvx: int, pvy: int): (s: TargetState)
    requires 600 <= px < 780 && 200 <= py < 550 && 4 <= pr < 50
    requires 1 <= pvx < 5 && 5 <= pvy < 15
    ensures Spawned(s)
  {
    TargetState(px as real, py as real, pr, pvx as real / 4.0, pvy as real / 5.0, 1, Red)
  }

  /** Every state Spawned allows is one that `new_target` can draw, so
      Spawned describes the respawn exactly. */
  lemma SpawnedIsReachable(s: TargetState)
    requires Spawned(s)
    ensures 600 <= s.x.Floor < 780 && 200 <= s.y.Floor < 550
    ensures 1 <= (4.0 * s.vx).Floor < 5 && 5 <= (5.0 * s.vy).Floor < 15
    ensures s == Spawn(s.x.Floor, s.y.Floor, s.r, (4.0 * s.vx).Floor, (5.0 * s.vy).Floor)
  {
  }

  /** The state after one `move`: x is advanced first and its wall test
      uses the new x; the vertical wall test uses the old y and only then
      is y advanced. */
  function Moved(s: TargetState): (t: TargetState)
    ensures t.r == s.r && t.live == s.live && t.color == s.color
    ensures (t.vx == s.vx || t.vx == -s.vx) && (t.vy == s.vy || t.vy == -s.vy)
    ensures t.x == s.x + s.vx && t.y == s.y - t.vy
    ensures t.vy == -s.vy <== s.y <= 0.0 || s.y >= Height as real
    ensures t.vx == -s.vx <== t.x <= 0.0 || t.x >= Width as real
    ensures 0.0 < s.y < Height as real ==> t.vy == s.vy
    ensures 0.0 < t.x < Width as real ==> t.vx == s.vx
  {
    var x := s.x + s.vx;
    var vy := if s.y <= 0.0 || s.y >= Height as real then -s.vy else s.vy;
    var vx := if x <= 0.0 || x >= Width as real then -s.vx else s.vx;
    s.(x := x, vx := vx, vy := vy, y := s.y - vy)
  }

  /** `n` ticks of target motion. */
  function MovedN(s: TargetState, n: nat): TargetState
    decreases n
  {
    if n == 0 then s else MovedN(Moved(s), n - 1)
  }

  /** The invariant a live target keeps: its speeds have the magnitudes a
      spawn gives, and a target beyond a wall is already heading back and
      is less than one step past it. */
  predicate InArena(s: TargetState) {
    && 0.25 <= Abs(s.vx) <= 1.0 && 1.0 <= Abs(s.vy) <= 2.8
    && (s.x >= Width as real ==> s.vx < 0.0 && s.x < Width as real + Abs(s.vx))
    && (s.x <= 0.0 ==> s.vx > 0.0 && s.x > -Abs(s.vx))
    && (s.y >= Height as real ==> s.vy < 0.0 && s.y < Height as real + Abs(s.vy))
    && (s.y <= 0.0 ==> s.vy > 0.0 && s.y > -Abs(s.vy))
  }

  lemma SpawnedInArena(s: TargetState)
    requires Spawned(s)
    ensures InArena(s)
  {
  }

  /** One move keeps the arena invariant. */
  lemma MovedInArena(s: TargetState)
    requires InArena(s)
    ensures InArena(Moved(s))
  {
  }

  /** A target that starts in the arena stays in it for any number of
      ticks, so its centre never gets more than one step outside the
      window: -1 < x < 801 and -2.8 < y < 602.8. */
  lemma {:induction false} MovedNInArena(s: TargetState, n: nat)
    requires InArena(s)
    ensures InArena(MovedN(s, n))
    ensures -1.0 < MovedN(s, n).x < Width as real + 1.0
    ensures -2.8 < MovedN(s, n).y < Height as real + 2.8
    ensures MovedN(s, n).r == s.r && MovedN(s, n).live == s.live
    ensures Abs(MovedN(s, n).vx) == Abs(s.vx) && Abs(MovedN(s, n).vy) == Abs(s.vy)
    decreases n
  {
    if n > 0 {
      MovedInArena(s);
      MovedNInArena(Moved(s), n - 1);
    }
  }

  class Target {
    var x: real
    var y: real
    var r: int
    var vx: real
    var vy: real
    var live: int
    var color: Color

    function State(): TargetState
      reads this
    {
      TargetState(x, y, r, vx, vy, live, color)
    }

    /** What every target keeps between ticks: alive and in the arena. */
    ghost predicate Valid()
      reads this
    {
      live == 1 && InArena(State())
    }

    /** The `live` argument is ignored: the target starts alive and is
        spawned at random. */
    constructor (liveArg: int)
      ensures Spawned(State()) && Valid()
    {
      live := 1;
      new;
      NewTarget();
    }

    /** Redraws every attribute at random, as `new_target` does. */
    method NewTarget()
      modifies this
      ensures Spawned(State()) && Valid()
    {
      assert 600 <= 600 < 780 && 200 <= 200 < 550 && 4 <= 4 < 50;
      assert 1 <= 1 < 5 && 5 <= 5 < 15;
      var px: int :| 600 <= px < 780;
      var py: int :| 200 <= py < 550;
      var pr: int :| 4 <= pr < 50;
      var pvx: int :| 1 <= pvx < 5;
      var pvy: int :| 5 <= pvy < 15;
      x := px as real;
      y := py as real;
      r := pr;
      vx := pvx as real / 4.0;
      vy := pvy as real / 5.0;
      live := 1;
      color := Red;
      assert State() == Spawn(px, py, pr, pvx, pvy);
      SpawnedInArena(State());
    }

    /** One tick of motion with the wall bounces. */
    method Move()
      modifies this
      ensures State() == Moved(old(State()))
      ensures old(Valid()) ==> Valid()
    {
      x := x + vx;
      if y <= 0.0 || y >= Height as real {
        vy := -vy;
      }
      if x <= 0.0 || x >= Width as real {
        vx := -vx;
      }
      y := y - vy;
      if old(Valid()) {
        MovedInArena(old(State()));
      }
    }
  }
}
