/** The cat and the per-tick physics that move it: walking, gravity, the left wall and landing. */
module Actor {
  import opened Level
  import opened Input

  /** The mutable part of the cat record; its size and walking speed never change. */
  datatype Cat = Cat(x: real, y: real, vy: real, onGround: bool, jumpCount: nat, sprint: bool, sprintBoost: bool)

  const CatW: real := 60.0
  const CatH: real := 60.0
  const BaseSpeed: real := 4.0
  const SprintFactor: real := 1.8
  const JumpVelocity: real := -12.0
  const MaxJumps: nat := 2
  /** The y at which the cat stands on the ground. */
  const GroundY: real := 390.0
  /** How far below a platform's top a falling cat's feet may be and still land on it. */
  const LandingBand: real := 15.0

  const InitialCat: Cat := Cat(100.0, 300.0, 0.0, false, 0, false, false)

  /** The cat's collision box. */
  function Body(c: Cat): Rect
  {
    Rect(c.x, c.y, CatW, CatH)
  }

  /** Horizontal speed this tick: 4, or 4 * 1.8 while Shift is down or a speed boost is active. */
  function Speed(c: Cat, keys: map<string, bool>): (s: real)
    ensures s == BaseSpeed || s == BaseSpeed * SprintFactor
    ensures s == BaseSpeed * SprintFactor <==> SprintHeld(keys) || c.sprintBoost
  {
    if SprintHeld(keys) || c.sprintBoost then BaseSpeed * SprintFactor else BaseSpeed
  }

  /** Walking: left keys subtract the speed, right keys add it; both at once cancel. */
  function Walk(c: Cat, keys: map<string, bool>): (r: Cat)
    ensures r == c.(x := r.x)
    ensures LeftHeld(keys) == RightHeld(keys) ==> r.x == c.x
    ensures LeftHeld(keys) && !RightHeld(keys) ==> r.x == c.x - Speed(c, keys)
    ensures RightHeld(keys) && !LeftHeld(keys) ==> r.x == c.x + Speed(c, keys)
  {
    var s := Speed(c, keys);
    var x1 := if LeftHeld(keys) then c.x - s else c.x;
    c.(x := if RightHeld(keys) then x1 + s else x1)
  }

  /** Gravity: the velocity grows by g, then the position moves by the new velocity. */
  function Fall(c: Cat, g: real): (r: Cat)
    ensures r == c.(vy := r.vy, y := r.y)
    ensures r.vy - c.vy == g && r.y - c.y == r.vy
  {
    c.(vy := c.vy + g, y := c.y + c.vy + g)
  }

  /** The left wall. */
  function ClampLeft(c: Cat): (r: Cat)
    ensures r.x >= 0.0
    ensures c.x >= 0.0 ==> r == c
    ensures r == c.(x := r.x)
  {
    if c.x < 0.0 then c.(x := 0.0) else c
  }

  /** The resting state after touching a surface whose top is at `y + CatH`. */
  function Rest(c: Cat, y: real): Cat
  {
    c.(y := y, vy := 0.0, jumpCount := 0, onGround := true)
  }

  /** Ground contact: the grounded flag is cleared, then set again if the cat reached the ground. */
  function GroundContact(c: Cat): (r: Cat)
    ensures r.onGround <==> c.y >= GroundY
    ensures r.onGround ==> r == Rest(c, GroundY)
    ensures !r.onGround ==> r == c.(onGround := false)
  {
    if c.y >= GroundY then Rest(c, GroundY) else c.(onGround := false)
  }

  /** A falling cat over platform p whose feet lie within the landing band of p's top. */
  predicate LandsOn(c: Cat, p: Platform)
  {
    c.vy >= 0.0
    && c.x + CatW > p.x && c.x < p.x + p.w
    && c.y + CatH >= p.y && c.y + CatH <= p.y + LandingBand
  }

  /** One platform's landing check. */
  function LandOn(c: Cat, p: Platform): (r: Cat)
    ensures LandsOn(c, p) ==> r.y + CatH == p.y && r.vy == 0.0 && r.jumpCount == 0 && r.onGround
    ensures !LandsOn(c, p) ==> r == c
    ensures r.x == c.x && r.sprintBoost == c.sprintBoost && r.sprint == c.sprint
  {
    if LandsOn(c, p) then Rest(c, p.y - CatH) else c
  }

  /** The platform loop: every platform in order, a later landing overriding an earlier one. */
  function LandAll(c: Cat, ps: seq<Platform>): (r: Cat)
    ensures r.x == c.x && r.sprintBoost == c.sprintBoost && r.sprint == c.sprint
    ensures r.jumpCount <= c.jumpCount
  {
    if ps == [] then c else LandOn(LandAll(c, ps[..|ps| - 1]), ps[|ps| - 1])
  }

  /** Ground contact followed by the platform loop. */
  function Land(c: Cat, ps: seq<Platform>): (r: Cat)
    ensures r.x == c.x && r.sprintBoost == c.sprintBoost && r.sprint == c.sprint
    ensures r.jumpCount <= c.jumpCount
  {
    LandAll(GroundContact(c), ps)
  }

  /** A rising cat is never snapped onto a platform, whatever the platforms. */
  lemma {:induction false} RisingCatIsNeverSnapped(c: Cat, ps: seq<Platform>)
    requires c.vy < 0.0
    ensures LandAll(c, ps) == c
  {
    if ps != [] {
      RisingCatIsNeverSnapped(c, ps[..|ps| - 1]);
    }
  }

  /**
   * The platform loop either leaves the cat alone or leaves it at rest, with
   * its feet exactly on the top of one of the platforms.
   */
  lemma {:induction false} LandAllRests(c: Cat, ps: seq<Platform>)
    ensures var r := LandAll(c, ps);
      r == c || (r.vy == 0.0 && r.jumpCount == 0 && r.onGround
                 && exists i :: 0 <= i < |ps| && r.y + CatH == ps[i].y)
  {
    if ps != [] {
      var n := |ps| - 1;
      LandAllRests(c, ps[..n]);
      var r0 := LandAll(c, ps[..n]);
      if LandsOn(r0, ps[n]) {
        assert LandAll(c, ps).y + CatH == ps[n].y;
      } else {
        assert LandAll(c, ps) == r0;
        if r0 != c {
          var i :| 0 <= i < n && r0.y + CatH == ps[..n][i].y;
          assert ps[i] == ps[..n][i];
        }
      }
    }
  }

  /**
   * After ground contact and the platform loop, a grounded cat is at rest with
   * no jumps used; a cat that is not grounded was neither moved nor stopped.
   */
  lemma LandSettles(c: Cat, ps: seq<Platform>)
    ensures var r := Land(c, ps);
      (r.onGround ==> r.vy == 0.0 && r.jumpCount == 0)
      && (!r.onGround ==> r == c.(onGround := false))
  {
    LandAllRests(GroundContact(c), ps);
  }

  /**
   * A falling cat that meets the landing test of some platform ends the
   * platform loop at rest, whichever platform it meets and whatever the
   * platforms after it.
   */
  lemma {:induction false} LandsSomewhereRests(c: Cat, ps: seq<Platform>, i: nat)
    requires i < |ps| && LandsOn(c, ps[i])
    ensures var r := LandAll(c, ps); r.onGround && r.vy == 0.0 && r.jumpCount == 0
  {
    var n := |ps| - 1;
    if i < n {
      assert ps[..n][i] == ps[i];
      LandsSomewhereRests(c, ps[..n], i);
    } else {
      LandAllRests(c, ps[..n]);
    }
  }

  /**
   * A cat standing on the ground at rest stays there through the platform loop
   * when no platform other than one level with the ground has its top within
   * the landing band above the cat's feet.
   */
  lemma {:induction false} GroundedStaysGrounded(c: Cat, ps: seq<Platform>)
    requires c.y == GroundY && c.vy == 0.0 && c.jumpCount == 0 && c.onGround
    requires forall i :: 0 <= i < |ps| ==> ps[i].y == GroundY + CatH || ps[i].y + LandingBand < GroundY + CatH
    ensures LandAll(c, ps) == c
  {
    if ps != [] {
      GroundedStaysGrounded(c, ps[..|ps| - 1]);
    }
  }
}
