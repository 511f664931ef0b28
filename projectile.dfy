/** Projectiles: lifetime, motion under gravity and quadratic drag, the
    collision test against a target, and the list of projectiles in flight. */
module Projectile {
  import opened Constants
  import opened Targets

  /** The fields of a projectile at one moment. */
  datatype BallState = BallState(x: real, y: real, r: int, vx: real, vy: real, mass: int, live: real, color: Color)

  /** Vertical velocity after the gravity step of `move`: 0.2 is taken
      off, the sign flips if the (already updated) height `y` is on or
      beyond the floor or the ceiling, and 0.2 is taken off again. Inside
      the arena that is a loss of 0.4; at a wall it is an exact reversal. */
  function Gravity(y: real, vy: real): (g: real)
    ensures 0.0 < y < Height as real ==> g == vy - 0.4
    ensures y <= 0.0 || y >= Height as real ==> g == -vy
  {
    var v1 := vy - 0.2;
    var v2 := if y <= 0.0 || y >= Height as real then -v1 else v1;
    v2 - 0.2
  }

  /** The factor quadratic drag multiplies each velocity component by. */
  function DragFactor(v: real, mass: int): real
    requires mass != 0
  {
    1.0 - K * v / (mass as real * Fps as real)
  }

  /** One velocity component after drag, computed in its unsimplified
      form; it scales the component by DragFactor, so the direction of
      motion is kept. */
  function Drag(c: real, v: real, mass: int): (d: real)
    requires v != 0.0 && mass != 0
    ensures d == c * DragFactor(v, mass)
  {
    var m := mass as real;
    var f := Fps as real;
    assert c / v * K * (v * v) == c * K * v by {
      assert c / v * v == c;
    }
    assert c * K * v / m / f == c * (K * v / (m * f));
    c - c / v * K * (v * v) / m / f
  }

  /** The state of a projectile after `move` has done everything before
      the drag step: lifetime down by 0.1, position moved by (vx, -vy),
      vy through the gravity step at the new height, vx and the other
      fields untouched. */
  function Kinematic(s: BallState): (t: BallState)
    ensures t.live == s.live - 0.1 && t.x == s.x + s.vx && t.y == s.y - s.vy
    ensures 0.0 < t.y < Height as real ==> t.vy == s.vy - 0.4
    ensures t.y <= 0.0 || t.y >= Height as real ==> t.vy == -s.vy
    ensures t.vx == s.vx && t.r == s.r && t.mass == s.mass && t.color == s.color
  {
    var x := s.x + s.vx;
    var y := s.y - s.vy;
    s.(live := s.live - 0.1, x := x, y := y, vy := Gravity(y, s.vy))
  }

  function SpeedSq(s: BallState): real {
    s.vy * s.vy + s.vx * s.vx
  }

  /** `move` raises a division by zero in the drag step when the speed
      after gravity is zero or the mass is zero. */
  predicate Crashes(s: BallState, sqrt: real -> real) {
    sqrt(SpeedSq(Kinematic(s))) == 0.0 || s.mass == 0
  }

  /** The state after one `move`, given the square root the drag step
      uses. When the drag step divides by zero the state is the one the
      exception leaves: lifetime, position and the gravity step done, the
      drag not applied. */
  function Advance(s: BallState, sqrt: real -> real): (t: BallState)
    ensures t.live == s.live - 0.1
    ensures t.x == s.x + s.vx && t.y == s.y - s.vy
    ensures t.r == s.r && t.mass == s.mass && t.color == s.color
  {
    var k := Kinematic(s);
    var v := sqrt(SpeedSq(k));
    if v == 0.0 || k.mass == 0 then k
    else k.(vy := Drag(k.vy, v, k.mass), vx := Drag(k.vx, v, k.mass))
  }

  /** The velocity after one `move`: gravity acts on vy, then, unless the
      drag step divides by zero, both components are scaled by the drag
      factor of the speed after gravity. */
  lemma AdvanceVelocity(s: BallState, sqrt: real -> real)
    ensures var t := Advance(s, sqrt);
      && (Crashes(s, sqrt) ==> t.vx == s.vx && t.vy == Gravity(t.y, s.vy))
      && (!Crashes(s, sqrt) ==>
            var f := DragFactor(sqrt(SpeedSq(Kinematic(s))), s.mass);
            t.vx == s.vx * f && t.vy == Gravity(t.y, s.vy) * f)
  {
  }

  /** `n` successive moves. */
  function Flight(s: BallState, sqrt: real -> real, n: nat): BallState
    decreases n
  {
    if n == 0 then s else Flight(Advance(s, sqrt), sqrt, n - 1)
  }

  /** `n` moves take exactly n/10 off the lifetime and never change the
      radius, the mass or the colour. */
  lemma {:induction false} FlightLifetime(s: BallState, sqrt: real -> real, n: nat)
    ensures Flight(s, sqrt, n).live == s.live - n as real / 10.0
    ensures Flight(s, sqrt, n).r == s.r && Flight(s, sqrt, n).mass == s.mass
    ensures Flight(s, sqrt, n).color == s.color
    decreases n
  {
    if n > 0 {
      FlightLifetime(Advance(s, sqrt), sqrt, n - 1);
    }
  }

  /** A freshly fired projectile (lifetime 30) is still alive after 299
      moves and has expired after exactly 300. */
  lemma ExpiresAfter300(s: BallState, sqrt: real -> real, n: nat)
    requires s.live == 30.0
    ensures Flight(s, sqrt, n).live <= 0.0 <==> n >= 300
  {
    FlightLifetime(s, sqrt, n);
  }

  /** Drag scales both components by the same factor, so the new velocity
      is parallel to the old one and points the same way while the factor
      is positive. */
  lemma DragKeepsDirection(vx: real, vy: real, v: real, mass: int)
    requires mass > 0 && v > 0.0
    ensures Drag(vx, v, mass) * vy == Drag(vy, v, mass) * vx
    ensures DragFactor(v, mass) > 0.0 ==>
      (Drag(vx, v, mass) > 0.0 <==> vx > 0.0) && (Drag(vy, v, mass) > 0.0 <==> vy > 0.0)
  {
  }

  /** With `v` the true speed of (vx, vy), the speed after drag is
      |factor| * v. */
  lemma DragSpeed(vx: real, vy: real, v: real, mass: int)
    requires mass > 0 && v > 0.0 && v * v == vx * vx + vy * vy
    ensures Drag(vx, v, mass) * Drag(vx, v, mass) + Drag(vy, v, mass) * Drag(vy, v, mass)
         == DragFactor(v, mass) * DragFactor(v, mass) * (v * v)
  {
  }

  /** Drag never speeds a projectile up as long as K * v <= 2 * mass * FPS,
      that is, as long as the factor stays at or above -1. */
  lemma DragSlows(vx: real, vy: real, v: real, mass: int)
    requires mass > 0 && v > 0.0 && v * v == vx * vx + vy * vy
    requires K * v <= 2.0 * (mass as real * Fps as real)
    ensures Drag(vx, v, mass) * Drag(vx, v, mass) + Drag(vy, v, mass) * Drag(vy, v, mass) <= v * v
  {
    DragSpeed(vx, vy, v, mass);
    var f := DragFactor(v, mass);
    var a, d := K * v, mass as real * Fps as real;
    MulPos(K, v);
    MulPos(mass as real, Fps as real);
    RatioBounds(a, d);
    assert f == 1.0 - a / d;
    var w := v * v;
    FactorShrinks(f, w);
    assert Drag(vx, v, mass) * Drag(vx, v, mass) + Drag(vy, v, mass) * Drag(vy, v, mass) == f * f * w;
  }

  lemma RatioBounds(a: real, d: real)
    requires d > 0.0 && 0.0 < a <= 2.0 * d
    ensures 0.0 < a / d <= 2.0
  {
  }

  /** Scaling a non-negative amount by the square of a factor in [-1, 1]
      does not increase it. */
  lemma FactorShrinks(f: real, w: real)
    requires -1.0 <= f <= 1.0 && w >= 0.0
    ensures f * f * w <= w
  {
    MulNonneg(1.0 - f, 1.0 + f);
    assert 1.0 - f * f == (1.0 - f) * (1.0 + f);
    MulNonneg(1.0 - f * f, w);
    assert w - f * f * w == (1.0 - f * f) * w;
  }

  /** The collision test of `hit`: the squared distance of the centres is
      strictly less than the square of the sum of the radii. */
  predicate Overlap(x1: real, y1: real, r1: real, x2: real, y2: real, r2: real)
  {
    (x1 - x2) * (x1 - x2) + (y1 - y2) * (y1 - y2) < (r1 + r2) * (r1 + r2)
  }

  /** The hit test of a projectile against a target; it gives the same
      answer when the target asks. */
  predicate HitsTarget(b: BallState, t: TargetState)
    ensures HitsTarget(b, t) == Overlap(t.x, t.y, t.r as real, b.x, b.y, b.r as real)
  {
    Overlap(b.x, b.y, b.r as real, t.x, t.y, t.r as real)
  }

  /** The test does not depend on which circle asks. */
  lemma OverlapSymmetric(x1: real, y1: real, r1: real, x2: real, y2: real, r2: real)
    ensures Overlap(x1, y1, r1, x2, y2, r2) == Overlap(x2, y2, r2, x1, y1, r1)
  {
  }

  /** With `d` the distance of the centres and radii that sum to a
      non-negative value, the test holds exactly when the circles are
      closer than the sum of the radii; circles that merely touch do not
      hit. */
  lemma OverlapIffCloser(x1: real, y1: real, r1: real, x2: real, y2: real, r2: real, d: real)
    requires d >= 0.0 && d * d == (x1 - x2) * (x1 - x2) + (y1 - y2) * (y1 - y2)
    requires r1 + r2 >= 0.0
    ensures Overlap(x1, y1, r1, x2, y2, r2) <==> d < r1 + r2
    ensures d == r1 + r2 ==> !Overlap(x1, y1, r1, x2, y2, r2)
  {
    var s := r1 + r2;
    assert Overlap(x1, y1, r1, x2, y2, r2) <==> d * d < s * s;
    if d < s {
      SquareLess(d, s);
    } else {
      SquareLess(s, d);
      assert s * s <= d * d;
    }
  }

  lemma MulNonneg(a: real, b: real)
    requires a >= 0.0 && b >= 0.0
    ensures a * b >= 0.0
  {
  }

  lemma MulPos(a: real, b: real)
    requires a > 0.0 && b > 0.0
    ensures a * b > 0.0
  {
  }

  /** Squaring is monotone on the non-negative reals. */
  lemma SquareLess(a: real, b: real)
    requires 0.0 <= a <= b
    ensures a * a <= b * b
    ensures a < b ==> a * a < b * b
  {
    MulNonneg(b - a, b + a);
    assert b * b - a * a == (b - a) * (b + a);
    if a < b {
      MulPos(b - a, b + a);
    }
  }

  class Ball {
    var x: real
    var y: real
    var r: int
    var vx: real
    var vy: real
    var mass: int
    var live: real
    var color: Color

    function State(): BallState
      reads this
    {
      BallState(x, y, r, vx, vy, mass, live, color)
    }

    /** A projectile at rest at (x0, y0) with radius 10, mass 5, lifetime
        30 and a colour drawn from the palette. */
    constructor (x0: real, y0: real)
      ensures State() == BallState(x0, y0, 10, 0.0, 0.0, 5, 30.0, color)
      ensures color in GameColors
    {
      assert Blue in GameColors;
      var c :| c in GameColors;
      mass := 5;
      x := x0;
      y := y0;
      r := 10;
      vx := 0.0;
      vy := 0.0;
      color := c;
      live := 30.0;
    }

    /** One tick of motion. `sqrt` is the square root the drag step
        takes; `ok` is false when that step divides by zero. */
    method Move(sqrt: real -> real) returns (ok: bool)
      modifies this
      ensures State() == Advance(old(State()), sqrt)
      ensures ok == !Crashes(old(State()), sqrt)
    {
      ghost var s := State();
      live := live - 0.1;
      x := x + vx;
      y := y - vy;
      vy := vy - 0.2;
      if y <= 0.0 || y >= Height as real {
        vy := -vy;
      }
      vy := vy - 0.2;
      ghost var k := Kinematic(s);
      assert State() == k;
      var sq := vy * vy + vx * vx;
      assert sq == SpeedSq(k);
      var v := sqrt(sq);
      if v == 0.0 || mass == 0 {
        return false;
      }
      vy := Drag(vy, v, mass);
      vx := Drag(vx, v, mass);
      assert State() == k.(vy := Drag(k.vy, v, k.mass), vx := Drag(k.vx, v, k.mass));
      ok := true;
    }

    /** `hit`, the collision test against a target: strict overlap of the
        two circles, the same answer whichever of the two asks. */
    predicate Hit(t: Target)
      reads this, t
      ensures Hit(t) == Overlap(t.x, t.y, t.r as real, x, y, r as real)
    {
      HitsTarget(State(), t.State())
    }
  }

  ghost function States(bs: seq<Ball>): (ss: seq<BallState>)
    reads bs
    ensures |ss| == |bs| && forall i :: 0 <= i < |bs| ==> ss[i] == bs[i].State()
  {
    if bs == [] then [] else [bs[0].State()] + States(bs[1..])
  }

  /** No element occurs twice. */
  predicate Distinct<T(==)>(s: seq<T>) {
    forall i, j :: 0 <= i < j < |s| ==> s[i] != s[j]
  }

  /** Deleting one element keeps a sequence free of repetitions. */
  lemma DistinctDelete<T>(s: seq<T>, k: nat)
    requires Distinct(s) && k < |s|
    ensures Distinct(s[..k] + s[k + 1..])
  {
  }

  /** The list of projectiles in flight. */
  class BallList {
    var balls: seq<Ball>

    /** No projectile appears twice in the list. */
    ghost predicate Valid()
      reads this
    {
      Distinct(balls)
    }

    constructor ()
      ensures Valid() && balls == []
    {
      balls := [];
    }

    /** `del balls[k]`. */
    method Delete(k: nat)
      requires Valid() && k < |balls|
      modifies this`balls
      ensures Valid() && balls == old(balls[..k] + balls[k + 1..])
    {
      DistinctDelete(balls, k);
      balls := balls[..k] + balls[k + 1..];
    }
  }
}
