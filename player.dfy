/** The player: a point moved by the input and kept inside the region. */
module Players {
  import opened Geometry
  import Inputs

  /** `Math.max(lo, Math.min(hi, v))`. */
  function Clamp(v: real, lo: real, hi: real): (c: real)
    ensures lo <= hi ==> lo <= c <= hi
    ensures lo <= v <= hi ==> c == v
    ensures lo <= hi && v < lo ==> c == lo
    ensures v > hi ==> c == Max(lo, hi)
    ensures hi < lo ==> c == lo
  {
    Max(lo, Min(hi, v))
  }

  /**
   * Where `update` leaves a player of the given speed and size standing at
   * `p` under movement `m` in a world of size `bounds`: one step of `speed`
   * along `m`, then each coordinate clamped to `[size, extent - size]`.
   * A step that stays inside the bounds is taken exactly, one that leaves
   * them stops at the edge; the result lies inside the bounds whenever they
   * are not empty, and a player standing still inside them stays put.
   */
  function Moved(p: Vec, m: Vec, speed: real, size: real, bounds: Size): (q: Vec)
    ensures size <= p.x + m.x * speed <= bounds.width - size ==> q.x == p.x + m.x * speed
    ensures size <= p.y + m.y * speed <= bounds.height - size ==> q.y == p.y + m.y * speed
    ensures p.x + m.x * speed < size ==> q.x == size
    ensures p.y + m.y * speed < size ==> q.y == size
    ensures bounds.width >= 2.0 * size && p.x + m.x * speed > bounds.width - size ==> q.x == bounds.width - size
    ensures bounds.height >= 2.0 * size && p.y + m.y * speed > bounds.height - size ==> q.y == bounds.height - size
    ensures bounds.width >= 2.0 * size ==> size <= q.x <= bounds.width - size
    ensures bounds.height >= 2.0 * size ==> size <= q.y <= bounds.height - size
    ensures m == Vec(0.0, 0.0) && size <= p.x <= bounds.width - size && size <= p.y <= bounds.height - size ==> q == p
  {
    Vec(Clamp(p.x + m.x * speed, size, bounds.width - size), Clamp(p.y + m.y * speed, size, bounds.height - size))
  }

  class Player {
    var x: real
    var y: real
    const size: real := 15.0
    const speed: real := 6.0
    const detectionRadius: real := 100.0

    constructor (x: real, y: real)
      ensures this.x == x && this.y == y
    {
      this.x := x;
      this.y := y;
    }

    /**
     * `update`: moves by the input's movement times the speed, then clamps
     * each coordinate to `[size, extent - size]`.
     */
    method Update(input: Inputs.InputHandler, worldBounds: Size)
      requires input.Valid()
      modifies this`x, this`y
      ensures Vec(x, y) == Moved(Vec(old(x), old(y)), input.GetMovement(), speed, size, worldBounds)
    {
      var movement := input.GetMovement();

      x := x + movement.x * speed;
      y := y + movement.y * speed;

      x := Max(size, Min(worldBounds.width - size, x));
      y := Max(size, Min(worldBounds.height - size, y));
    }

    /** `getPosition`. */
    function GetPosition(): (p: Vec)
      reads this
      ensures p.x == x && p.y == y
    {
      Vec(x, y)
    }

    /** `distanceTo`, squared: never negative, zero to the player's own position, symmetric. */
    function DistanceTo(px: real, py: real): (d: real)
      reads this
      ensures d >= 0.0
      ensures px == x && py == y ==> d == 0.0
      ensures d == DistanceSq(Vec(px, py), Vec(x, y))
    {
      DistanceSymmetric(Vec(x, y), Vec(px, py));
      DistanceSq(Vec(x, y), Vec(px, py))
    }
  }
}
