/** The per-tick update of the main loop: events dispatched to the gun,
    projectiles moved and tested against both targets, then the targets
    and the gun charge advanced. */
module Game {
  import opened Constants
  import opened Targets
  import opened Projectile
  import opened Launcher

  /** The projectile loop stops at a projectile whose move divides by zero
      or whose lifetime is used up once it has moved, that is, one that had
      at most 0.1 left before the move. */
  predicate Stops(s: BallState, sqrt: real -> real)
    ensures Stops(s, sqrt) <==> Crashes(s, sqrt) || s.live <= 0.1
  {
    Crashes(s, sqrt) || Advance(s, sqrt).live <= 0.0
  }

  /** The index of the first projectile the loop stops at, |ss| if none. */
  function StopIndex(ss: seq<BallState>, sqrt: real -> real): (k: nat)
    ensures k <= |ss|
    ensures forall i :: 0 <= i < k ==> !Stops(ss[i], sqrt)
    ensures k < |ss| ==> Stops(ss[k], sqrt)
  {
    if ss == [] then 0
    else if Stops(ss[0], sqrt) then 0
    else 1 + StopIndex(ss[1..], sqrt)
  }

  /** Whether the loop ends with the exception of a division by zero. */
  predicate TickCrashes(ss: seq<BallState>, sqrt: real -> real) {
    var k := StopIndex(ss, sqrt);
    k < |ss| && Crashes(ss[k], sqrt)
  }

  /** How many projectiles, from the front, reach the hit tests: every
      one before the stop index, and the one at it exactly when its move
      did not divide by zero. */
  function Tested(ss: seq<BallState>, sqrt: real -> real): (n: nat)
    ensures n <= |ss|
    ensures var k := StopIndex(ss, sqrt);
      (n == k || n == k + 1) && (n == k + 1 <==> k < |ss| && !Crashes(ss[k], sqrt))
  {
    var k := StopIndex(ss, sqrt);
    if k == |ss| || TickCrashes(ss, sqrt) then k else k + 1
  }

  /** The tick ends in the exception exactly when some projectile's move
      divides by zero and every projectile before it neither divides by
      zero nor expires. */
  lemma TickCrashesIff(ss: seq<BallState>, sqrt: real -> real)
    ensures TickCrashes(ss, sqrt) <==>
      exists i :: 0 <= i < |ss| && Crashes(ss[i], sqrt) && forall j :: 0 <= j < i ==> !Stops(ss[j], sqrt)
  {
    var k := StopIndex(ss, sqrt);
    if TickCrashes(ss, sqrt) {
      assert Crashes(ss[k], sqrt) && forall j :: 0 <= j < k ==> !Stops(ss[j], sqrt);
    }
    if exists i :: 0 <= i < |ss| && Crashes(ss[i], sqrt) && forall j :: 0 <= j < i ==> !Stops(ss[j], sqrt) {
      var i :| 0 <= i < |ss| && Crashes(ss[i], sqrt) && forall j :: 0 <= j < i ==> !Stops(ss[j], sqrt);
      StopAt(ss, sqrt, i);
    }
  }

  /** The loop stops at `i` when it is the first projectile that stops it. */
  lemma StopAt(ss: seq<BallState>, sqrt: real -> real, i: nat)
    requires i < |ss| && Stops(ss[i], sqrt)
    requires forall j :: 0 <= j < i ==> !Stops(ss[j], sqrt)
    ensures StopIndex(ss, sqrt) == i
    ensures TickCrashes(ss, sqrt) == Crashes(ss[i], sqrt)
    ensures Tested(ss, sqrt) == if Crashes(ss[i], sqrt) then i else i + 1
  {
  }

  /** The loop runs to the end of the list when nothing stops it. */
  lemma NoStop(ss: seq<BallState>, sqrt: real -> real)
    requires forall j :: 0 <= j < |ss| ==> !Stops(ss[j], sqrt)
    ensures StopIndex(ss, sqrt) == |ss| && !TickCrashes(ss, sqrt) && Tested(ss, sqrt) == |ss|
  {
  }

  /** Whether one of the first `m` projectiles, after its move, hits a
      target in state `t`. */
  ghost predicate HitAmong(ss: seq<BallState>, sqrt: real -> real, m: nat, t: TargetState)
    requires m <= |ss|
  {
    exists j :: 0 <= j < m && HitsTarget(Advance(ss[j], sqrt), t)
  }

  lemma HitAmongNext(ss: seq<BallState>, sqrt: real -> real, m: nat, t: TargetState)
    requires m < |ss|
    ensures HitAmong(ss, sqrt, m + 1, t) <==> HitAmong(ss, sqrt, m, t) || HitsTarget(Advance(ss[m], sqrt), t)
  {
  }

  /** Whether some projectile that reaches the hit tests, after its move,
      hits target `t` while `t` is alive. */
  ghost predicate AnyHit(ss: seq<BallState>, sqrt: real -> real, t: TargetState) {
    t.live != 0 && HitAmong(ss, sqrt, Tested(ss, sqrt), t)
  }

  /** The projectile list after the loop: the projectile it stopped at is
      deleted unless the loop ended in the exception. At most one
      projectile goes, and the others keep their order. */
  function Survivors(xs: seq<Ball>, ss: seq<BallState>, sqrt: real -> real): (ys: seq<Ball>)
    requires |xs| == |ss|
    ensures |ys| == |xs| || |ys| == |xs| - 1
    ensures var k := StopIndex(ss, sqrt);
      if k < |ss| && !TickCrashes(ss, sqrt) then
        && |ys| == |xs| - 1
        && (forall i :: 0 <= i < k ==> ys[i] == xs[i])
        && (forall i :: k <= i < |ys| ==> ys[i] == xs[i + 1])
      else ys == xs
  {
    var k := StopIndex(ss, sqrt);
    if k < |ss| && !TickCrashes(ss, sqrt) then xs[..k] + xs[k + 1..] else xs
  }

  /** Where a target stands relative to its state `s` before the loop:
      respawned if it has been hit, untouched otherwise. */
  ghost predicate Respawned(hit: bool, now: TargetState, s: TargetState) {
    if hit then Spawned(now) else now == s
  }

  /** The hit test of one projectile against one target, with the respawn
      of a target hit while alive. `s` is the target as it was before the
      loop and `hit` whether it has been respawned since. */
  method Strike(b: Ball, t: Target, ghost s: TargetState, ghost hit: bool) returns (ghost hit': bool)
    requires Respawned(hit, t.State(), s)
    modifies t
    ensures hit' == (hit || (s.live != 0 && HitsTarget(b.State(), s)))
    ensures Respawned(hit', t.State(), s)
  {
    hit' := hit;
    if b.Hit(t) && t.live != 0 {
      t.live := 0;
      t.NewTarget();
      hit' := true;
    }
  }

  /** One projectile's turn in the loop, up to the lifetime check: the
      projectile `b`, number `i` of the projectiles in states `ss`, is moved
      and, unless the move divides by zero, tested against both targets.
      `s1` and `s2` are the targets as they were before the loop. */
  method Visit(b: Ball, t1: Target, t2: Target, sqrt: real -> real, ghost ss: seq<BallState>, ghost i: nat,
               ghost s1: TargetState, ghost s2: TargetState, ghost hit1: bool, ghost hit2: bool)
      returns (ok: bool, ghost hit1': bool, ghost hit2': bool)
    requires t1 != t2 && i < |ss| && b.State() == ss[i]
    requires hit1 == (s1.live != 0 && HitAmong(ss, sqrt, i, s1)) && Respawned(hit1, t1.State(), s1)
    requires hit2 == (s2.live != 0 && HitAmong(ss, sqrt, i, s2)) && Respawned(hit2, t2.State(), s2)
    modifies b, t1, t2
    ensures b.State() == Advance(ss[i], sqrt)
    ensures ok == !Crashes(ss[i], sqrt)
    ensures var m := if ok then i + 1 else i;
      && hit1' == (s1.live != 0 && HitAmong(ss, sqrt, m, s1))
      && hit2' == (s2.live != 0 && HitAmong(ss, sqrt, m, s2))
    ensures Respawned(hit1', t1.State(), s1)
    ensures Respawned(hit2', t2.State(), s2)
  {
    hit1', hit2' := hit1, hit2;
    ok := b.Move(sqrt);
    if ok {
      HitAmongNext(ss, sqrt, i, s1);
      HitAmongNext(ss, sqrt, i, s2);
      hit1' := Strike(b, t1, s1, hit1);
      hit2' := Strike(b, t2, s2, hit2);
    }
  }

  /** The loop over the projectile list, on the projectiles `bs` in
      states `ss`: each projectile in turn is moved and tested against both
      targets, a target that is hit while alive is respawned, and the loop
      deletes the first projectile whose lifetime is used up and stops
      there. `e` is the index the loop stops at, |bs| if it runs to the
      end; projectiles after it are not moved. */
  method Sweep(list: BallList, t1: Target, t2: Target, sqrt: real -> real,
               ghost bs: seq<Ball>, ghost ss: seq<BallState>)
      returns (crashed: bool, ghost e: nat, ghost hit1: bool, ghost hit2: bool)
    requires list.balls == bs && Distinct(bs) && t1 != t2
    requires |ss| == |bs| && forall j :: 0 <= j < |bs| ==> bs[j].State() == ss[j]
    modifies list`balls, bs, t1, t2
    ensures e <= |bs| && forall j :: 0 <= j < e ==> !Stops(ss[j], sqrt)
    ensures e < |bs| ==> Stops(ss[e], sqrt) && crashed == Crashes(ss[e], sqrt)
    ensures e == |bs| ==> !crashed
    ensures list.balls == if e < |bs| && !crashed then bs[..e] + bs[e + 1..] else bs
    ensures forall j :: 0 <= j < |bs| ==>
      bs[j].State() == if j <= e then Advance(ss[j], sqrt) else ss[j]
    ensures var m := if crashed || e == |bs| then e else e + 1;
      && (hit1 <==> old(t1.live) != 0 && HitAmong(ss, sqrt, m, old(t1.State())))
      && (hit2 <==> old(t2.live) != 0 && HitAmong(ss, sqrt, m, old(t2.State())))
    ensures Respawned(hit1, t1.State(), old(t1.State()))
    ensures Respawned(hit2, t2.State(), old(t2.State()))
  {
    ghost var s1, s2 := t1.State(), t2.State();
    var n := |list.balls|;
    var i := 0;
    crashed, hit1, hit2 := false, false, false;
    while i < n
      invariant 0 <= i <= n == |bs| == |ss|
      invariant list.balls == bs
      invariant forall j :: 0 <= j < n ==> bs[j].State() == if j < i then Advance(ss[j], sqrt) else ss[j]
      invariant forall j :: 0 <= j < i ==> !Stops(ss[j], sqrt)
      invariant hit1 <==> s1.live != 0 && HitAmong(ss, sqrt, i, s1)
      invariant hit2 <==> s2.live != 0 && HitAmong(ss, sqrt, i, s2)
      invariant Respawned(hit1, t1.State(), s1)
      invariant Respawned(hit2, t2.State(), s2)
    {
      var b := list.balls[i];
      var ok;
      ok, hit1, hit2 := Visit(b, t1, t2, sqrt, ss, i, s1, s2, hit1, hit2);
      if !ok {
        crashed, e := true, i;
        return;
      }
      if b.live <= 0.0 {
        list.Delete(i);
        e := i;
        return;
      }
      i := i + 1;
    }
    e := n;
  }

  /** The projectile loop of one tick (see `Sweep`). `crashed` reports the
      division by zero of the drag step; `hit1` and `hit2` record whether
      each target was hit. */
  method MoveBalls(list: BallList, t1: Target, t2: Target, sqrt: real -> real)
      returns (crashed: bool, ghost hit1: bool, ghost hit2: bool)
    requires list.Valid() && t1 != t2
    modifies list`balls, list.balls, t1, t2
    ensures list.Valid()
    ensures var ss := old(States(list.balls));
      crashed == TickCrashes(ss, sqrt) && list.balls == Survivors(old(list.balls), ss, sqrt)
    ensures var ss, bs := old(States(list.balls)), old(list.balls);
      forall i :: 0 <= i < |bs| ==>
        bs[i].State() == if i <= StopIndex(ss, sqrt) then Advance(ss[i], sqrt) else ss[i]
    ensures hit1 == AnyHit(old(States(list.balls)), sqrt, old(t1.State()))
    ensures hit2 == AnyHit(old(States(list.balls)), sqrt, old(t2.State()))
    ensures Respawned(hit1, t1.State(), old(t1.State()))
    ensures Respawned(hit2, t2.State(), old(t2.State()))
  {
    ghost var bs := list.balls;
    ghost var ss := States(bs);
    ghost var e;
    crashed, e, hit1, hit2 := Sweep(list, t1, t2, sqrt, bs, ss);
    if e < |ss| {
      StopAt(ss, sqrt, e);
      if !crashed {
        DistinctDelete(bs, e);
      }
    } else {
      NoStop(ss, sqrt);
    }
  }

  /** The input events the main loop reacts to. A release carries the
      aiming angle of its position (atan2 relative to the new projectile)
      with its cosine and sine; a motion carries its position and the
      arctangent the aiming code computes from it. */
  datatype Event =
    | Quit
    | MouseDown
    | MouseUp(an: real, cosAn: real, sinAn: real)
    | MouseMotion(px: int, py: int, angle: real)

  /** Whether handling `e` raises the division by zero of the aiming code. */
  predicate Faults(e: Event) {
    e.MouseMotion? && e.px == 20
  }

  /** The number of releases, each of which fires one projectile. */
  function Releases(es: seq<Event>): (n: nat)
    ensures n <= |es|
    ensures n == 0 <==> forall i :: 0 <= i < |es| ==> !es[i].MouseUp?
  {
    if es == [] then 0 else Releases(es[..|es| - 1]) + (if es[|es| - 1].MouseUp? then 1 else 0)
  }

  /** The global state of the game: the gun, two targets, the projectile
      list and the flag that ends the main loop. */
  class World {
    const gun: Gun
    const target1: Target
    const target2: Target
    const list: BallList
    var finished: bool

    /** Charge bounds of the gun, both targets alive and in the arena, no
        projectile listed twice. */
    ghost predicate Valid()
      reads this, gun, target1, target2, list
    {
      && target1 != target2
      && gun.Valid() && target1.Valid() && target2.Valid() && list.Valid()
    }

    constructor ()
      ensures Valid() && !finished && list.balls == []
      ensures gun.State() == GunState(30, 10, false, 1.0, Black)
      ensures Spawned(target1.State()) && Spawned(target2.State())
    {
      gun := new Gun();
      target1 := new Target(0);
      target2 := new Target(0);
      list := new BallList();
      finished := false;
    }

    /** One event of the dispatch: quit ends the loop, a press starts
        charging, a release fires, a motion aims. `ok` is false when the
        aiming divides by zero. */
    method Dispatch(e: Event) returns (ok: bool)
      requires Valid()
      modifies this`finished, gun, list`balls
      ensures Valid()
      ensures ok == !Faults(e)
      ensures finished == (old(finished) || e.Quit?)
      ensures |list.balls| == |old(list.balls)| + (if e.MouseUp? then 1 else 0)
      ensures list.balls[..|old(list.balls)|] == old(list.balls)
      ensures forall j :: |old(list.balls)| <= j < |list.balls| ==> fresh(list.balls[j])
      ensures e.MouseDown? ==> gun.State() == old(gun.State()).(on := true)
      ensures e.MouseUp? ==> gun.State() == old(gun.State()).(an := e.an, on := false, power := 10)
      ensures e.MouseUp? ==>
        var b := list.balls[|old(list.balls)|];
        && b.color in GameColors
        && b.State() == BallState(30.0, 500.0, 15, old(gun.f2Power) as real * e.cosAn,
                                  -(old(gun.f2Power) as real) * e.sinAn, 5, 30.0, b.color)
      ensures e.Quit? ==> gun.State() == old(gun.State())
      ensures e.MouseMotion? && ok ==>
        gun.State() == old(gun.State()).(an := e.angle, color := if gun.f2On then Red else Black)
      ensures e.MouseMotion? && !ok ==> gun.State() == old(gun.State())
    {
      ok := true;
      match e
      case Quit =>
        finished := true;
      case MouseDown =>
        gun.FireStart();
      case MouseUp(an, cosAn, sinAn) =>
        gun.FireEnd(list, an, cosAn, sinAn);
      case MouseMotion(px, py, angle) =>
        ok := gun.Targetting(px, py, angle);
    }

    /** The event pump of one frame: the events are dispatched in order,
        and a division by zero in the aiming code stops the program. */
    method HandleEvents(events: seq<Event>) returns (ok: bool)
      requires Valid()
      modifies this`finished, gun, list`balls
      ensures Valid()
      ensures ok == forall i :: 0 <= i < |events| ==> !Faults(events[i])
      ensures ok ==> finished == (old(finished) || Quit in events)
      ensures ok ==> |list.balls| == |old(list.balls)| + Releases(events)
      ensures |list.balls| >= |old(list.balls)|
      ensures list.balls[..|old(list.balls)|] == old(list.balls)
      ensures forall j :: |old(list.balls)| <= j < |list.balls| ==> fresh(list.balls[j])
    {
      var i := 0;
      while i < |events|
        invariant 0 <= i <= |events|
        invariant Valid()
        invariant forall j :: 0 <= j < i ==> !Faults(events[j])
        invariant finished == (old(finished) || Quit in events[..i])
        invariant |list.balls| == |old(list.balls)| + Releases(events[..i])
        invariant list.balls[..|old(list.balls)|] == old(list.balls)
        invariant forall j :: |old(list.balls)| <= j < |list.balls| ==> fresh(list.balls[j])
      {
        ghost var before := list.balls;
        ok := Dispatch(events[i]);
        assert events[..i + 1][..i] == events[..i];
        assert list.balls[..|old(list.balls)|] == before[..|old(list.balls)|];
        assert forall j :: |old(list.balls)| <= j < |before| ==> list.balls[j] == before[j];
        if !ok {
          return;
        }
        i := i + 1;
      }
      assert events[..i] == events;
      ok := true;
    }

    /** The update that follows the event pump: the projectile loop, then
        both targets move one step and the gun charges one tick. `ok` is
        false when a projectile's drag step divides by zero, which stops
        the program before the targets and the gun are updated. */
    method Update(sqrt: real -> real) returns (ok: bool)
      requires Valid()
      modifies list`balls, list.balls, target1, target2, gun`width, gun`f2Power, gun`color
      ensures Valid()
      ensures var ss := old(States(list.balls));
        && ok == !TickCrashes(ss, sqrt)
        && list.balls == Survivors(old(list.balls), ss, sqrt)
        && (!AnyHit(ss, sqrt, old(target1.State())) && ok ==> target1.State() == Moved(old(target1.State())))
        && (!AnyHit(ss, sqrt, old(target2.State())) && ok ==> target2.State() == Moved(old(target2.State())))
      ensures var ss, bs := old(States(list.balls)), old(list.balls);
        forall i :: 0 <= i < |bs| ==>
          bs[i].State() == if i <= StopIndex(ss, sqrt) then Advance(ss[i], sqrt) else ss[i]
      ensures gun.State() == if ok then PoweredUp(old(gun.State())) else old(gun.State())
    {
      ghost var bs := list.balls;
      var crashed;
      ghost var hit1, hit2;
      crashed, hit1, hit2 := MoveBalls(list, target1, target2, sqrt);
      if hit1 { SpawnedInArena(target1.State()); }
      if hit2 { SpawnedInArena(target2.State()); }
      if crashed {
        return false;
      }
      MoveRest(bs);
      ok := true;
    }

    /** One pass of the main loop after drawing: the event pump, then the
        update. A quit request ends the loop only after this pass, so the
        update still runs; either division by zero stops the program. */
    method Frame(events: seq<Event>, sqrt: real -> real) returns (ok: bool)
      requires Valid()
      modifies this`finished, gun, list`balls, list.balls, target1, target2
      ensures Valid()
      ensures ok ==> finished == (old(finished) || Quit in events)
      ensures ok ==> forall i :: 0 <= i < |events| ==> !Faults(events[i])
    {
      ok := HandleEvents(events);
      if !ok {
        return;
      }
      ok := Update(sqrt);
    }

    /** The end of a tick: both targets move one step, the gun charges. */
    method MoveRest(ghost bs: seq<Ball>)
      requires Valid()
      modifies target1, target2, gun`width, gun`f2Power, gun`color
      ensures Valid()
      ensures target1.State() == Moved(old(target1.State()))
      ensures target2.State() == Moved(old(target2.State()))
      ensures gun.State() == PoweredUp(old(gun.State()))
      ensures list.balls == old(list.balls)
      ensures forall i :: 0 <= i < |bs| ==> bs[i].State() == old(bs[i].State())
    {
      target1.Move();
      target2.Move();
      gun.PowerUp();
    }
  }
}
