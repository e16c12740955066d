/**
 * The time scale system (d2core/d2systems/timescale.go): the first system of a world, which
 * multiplies the world's time delta by a scale between frames.
 *
 * The scale is a float64, but it is converted to a time.Duration (an int64, truncating toward
 * zero) before the multiplication, and the product wraps around like any int64 product.
 */
module TimeScale {
  import opened Ecs

  /** defaultScale */
  const DefaultScale: real := 1.0

  const Two63 := 0x8000_0000_0000_0000
  const Two64 := 0x1_0000_0000_0000_0000

  /** An int64 result: the mathematical value wrapped into [-2^63, 2^63). */
  function Wrap64(x: int): (r: Duration)
    ensures (r - x) % Two64 == 0
    ensures -Two63 <= x < Two63 ==> r == x
  {
    (x + Two63) % Two64 - Two63
  }

  /** time.Duration(scale), and Go's other float-to-integer conversions: toward zero. */
  function Truncate(scale: real): (d: int)
    ensures scale >= 0.0 ==> d as real <= scale < d as real + 1.0
    ensures scale < 0.0 ==> d as real - 1.0 < scale <= d as real
  {
    if scale >= 0.0 then scale.Floor else -((-scale).Floor)
  }

  /** The time delta after Process: TimeDelta *= time.Duration(scale). */
  function Scaled(timeDelta: Duration, scale: real): Duration {
    Wrap64(timeDelta * Wrap64(Truncate(scale)))
  }

  /** The default scale leaves the time delta as it is. */
  lemma DefaultScaleKeepsDelta(timeDelta: Duration)
    ensures Scaled(timeDelta, DefaultScale) == timeDelta
  {
    assert Truncate(DefaultScale) == 1;
  }

  /**
   * A whole scale whose product fits in an int64 multiplies the delta exactly; every scale
   * strictly between -1 and 1 stops time, and a scale in [1, 2) acts as 1.
   */
  lemma ScaleIsTruncated(timeDelta: Duration, scale: real)
    ensures -1.0 < scale < 1.0 ==> Scaled(timeDelta, scale) == 0
    ensures 1.0 <= scale < 2.0 ==> Scaled(timeDelta, scale) == timeDelta
    ensures (&& scale == scale.Floor as real
             && -Two63 <= scale.Floor < Two63
             && -Two63 <= timeDelta * scale.Floor < Two63) ==>
      Scaled(timeDelta, scale) == timeDelta * scale.Floor
  {
    if -1.0 < scale < 1.0 {
      assert Truncate(scale) == 0;
    }
    if 1.0 <= scale < 2.0 {
      assert Truncate(scale) == 1;
    }
    if scale == scale.Floor as real {
      assert Truncate(scale) == scale.Floor;
    }
  }

  class TimeScaleSystem {
    var world: World?
    var scale: real
    var active: bool

    /** NewTimeScaleSystem: no world yet, the zero scale, and (like every new system) inactive. */
    constructor ()
      ensures world == null && scale == 0.0 && !active
    {
      world, scale, active := null, 0.0, false;
    }

    function Active(): bool
      reads this
    {
      active
    }

    method SetActive(b: bool)
      modifies this`active
      ensures active == b
    {
      active := b;
    }

    /** Init: remembers the world and sets the default scale. */
    method Init(w: World)
      modifies this`world, this`scale
      ensures world == w && scale == DefaultScale
    {
      world := w;
      scale := DefaultScale;
    }

    /** Process: scales the world's time delta for this frame, unless the system is inactive. */
    method Process()
      requires active ==> world != null
      modifies (if world != null then {world} else {})`timeDelta
      ensures !active && world != null ==> world.timeDelta == old(world.timeDelta)
      ensures active ==> world.timeDelta == Scaled(old(world.timeDelta), scale)
    {
      if !Active() {
        return;
      }
      world.timeDelta := Scaled(world.timeDelta, scale);
    }
  }
}
