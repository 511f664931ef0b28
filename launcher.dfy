/** The gun: charging while the button is held, firing on release, and
    the colour that shows whether it is charging. */
module Launcher {
  import opened Constants
  import opened Projectile

  /** The fields of the gun its methods change: barrel width, charge,
      charging flag, angle and colour. */
  datatype GunState = GunState(width: int, power: int, on: bool, an: real, color: Color)

  /** The bounds the charge and the barrel width keep. */
  predicate ChargeBounded(g: GunState) {
    10 <= g.power <= 100 && 30 <= g.width <= 130
  }

  /** One `power_up`: while charging, the width follows the charge as it
      was before the tick and the charge grows by one up to 100, in red;
      otherwise the width drops back to 30, in black, and the charge is
      left alone. */
  function PoweredUp(g: GunState): (h: GunState)
    ensures h.on == g.on && h.an == g.an
    ensures h.color == (if g.on then Red else Black)
    ensures !g.on ==> h.width == 30 && h.power == g.power
    ensures g.on && g.power <= 100 ==> h.width == 30 + g.power && h.power == Min(g.power + 1, 100)
    ensures ChargeBounded(g) ==> ChargeBounded(h)
  {
    if g.on then
      g.(width := 30 + g.power, power := if g.power < 100 then g.power + 1 else g.power, color := Red)
    else
      g.(color := Black, width := 30)
  }

  /** `n` successive ticks of `power_up`. */
  function Charging(g: GunState, n: nat): GunState
    decreases n
  {
    if n == 0 then g else Charging(PoweredUp(g), n - 1)
  }

  /** Holding the button for `n` ticks from a charge of p leaves the charge
      at min(p + n, 100) and a barrel of width 30 + min(p + n - 1, 100). */
  lemma {:induction false} ChargingClosedForm(g: GunState, n: nat)
    requires g.on && 10 <= g.power <= 100
    ensures Charging(g, n).on && Charging(g, n).an == g.an
    ensures Charging(g, n).power == Min(g.power + n, 100)
    ensures n > 0 ==> Charging(g, n).width == 30 + Min(g.power + n - 1, 100) && Charging(g, n).color == Red
    decreases n
  {
    if n > 0 {
      ChargingClosedForm(PoweredUp(g), n - 1);
    }
  }

  /** From the initial charge of 10, exactly 90 charging ticks reach the
      cap of 100, and every later tick leaves it there. */
  lemma FullChargeAfter90(g: GunState)
    requires g.on && g.power == 10
    ensures Charging(g, 89).power == 99
    ensures forall n: nat :: n >= 90 ==> Charging(g, n).power == 100
  {
    ChargingClosedForm(g, 89);
    forall n: nat | n >= 90
      ensures Charging(g, n).power == 100
    {
      ChargingClosedForm(g, n);
    }
  }

  /** Ticks without the button held never change the charge. */
  lemma {:induction false} IdleKeepsCharge(g: GunState, n: nat)
    requires !g.on
    ensures Charging(g, n).power == g.power && !Charging(g, n).on
    ensures n > 0 ==> Charging(g, n).width == 30 && Charging(g, n).color == Black
    decreases n
  {
    if n > 0 {
      IdleKeepsCharge(PoweredUp(g), n - 1);
    }
  }

  /** A shot fired along the angle whose cosine and sine are `c` and `s`
      leaves with velocity (p*c, -p*s), the velocity `Gun.FireEnd` gives the
      new projectile: its speed is the charge p. */
  lemma LaunchSpeed(p: int, c: real, s: real)
    requires c * c + s * s == 1.0
    ensures (p as real * c) * (p as real * c) + (-(p as real) * s) * (-(p as real) * s) == p as real * p as real
  {
  }

  class Gun {
    var x: int
    var y: int
    var width: int
    var height: int
    var f2Power: int
    var f2On: bool
    var an: real
    var color: Color

    function State(): GunState
      reads this
    {
      GunState(width, f2Power, f2On, an, color)
    }

    /** The charge and width bounds, with the fixed position and height. */
    ghost predicate Valid()
      reads this
    {
      ChargeBounded(State()) && x == 30 && y == 500 && height == 30
    }

    constructor ()
      ensures Valid() && State() == GunState(30, 10, false, 1.0, Black)
    {
      x := 30;
      y := 500;
      width := 30;
      height := 30;
      f2Power := 10;
      f2On := false;
      an := 1.0;
      color := Black;
    }

    /** Button pressed: start charging. */
    method FireStart()
      modifies this`f2On
      ensures State() == old(State()).(on := true)
    {
      f2On := true;
    }

    /** Button released: appends one new projectile at (30, 500) with
        radius 15, mass 5, lifetime 30 and velocity (p * cos an, -p * sin an)
        for the charge p, then stops charging and resets the charge to 10.
        `an` is the aiming angle (the atan2 of the release point relative to
        the projectile) and `cosAn`, `sinAn` its cosine and sine. */
    method FireEnd(list: BallList, an: real, cosAn: real, sinAn: real)
      requires list.Valid()
      modifies this`an, this`f2On, this`f2Power, list`balls
      ensures list.Valid()
      ensures |list.balls| == |old(list.balls)| + 1
      ensures list.balls[..|old(list.balls)|] == old(list.balls)
      ensures var b := list.balls[|old(list.balls)|];
        && fresh(b) && b.color in GameColors
        && b.State() == BallState(30.0, 500.0, 15, old(f2Power) as real * cosAn,
                                  -(old(f2Power) as real) * sinAn, 5, 30.0, b.color)
      ensures State() == old(State()).(an := an, on := false, power := 10)
    {
      var b := new Ball(30.0, 500.0);
      b.r := b.r + 5;
      this.an := an;
      b.vx := f2Power as real * cosAn;
      b.vy := -(f2Power as real) * sinAn;
      list.balls := list.balls + [b];
      f2On := false;
      f2Power := 10;
    }

    /** Pointer moved: `angle` is atan((py - 450) / (px - 20)); a pointer on
        the vertical line px = 20 makes that a division by zero, which
        `ok = false` reports and which leaves the gun unchanged. Otherwise
        the angle is taken and the colour shows whether the gun is charging. */
    method Targetting(px: int, py: int, angle: real) returns (ok: bool)
      modifies this`an, this`color
      ensures ok == (px != 20)
      ensures ok ==> an == angle && color == (if f2On then Red else Black)
      ensures !ok ==> an == old(an) && color == old(color)
    {
      if px == 20 {
        return false;
      }
      an := angle;
      if f2On {
        color := Red;
      } else {
        color := Black;
      }
      ok := true;
    }

    /** One tick of charging. */
    method PowerUp()
      modifies this`width, this`f2Power, this`color
      ensures State() == PoweredUp(old(State()))
      ensures old(Valid()) ==> Valid()
    {
      if f2On {
        width := 30 + f2Power;
        if f2Power < 100 {
          f2Power := f2Power + 1;
        }
        color := Red;
      } else {
        color := Black;
        width := 30;
      }
    }
  }
}
