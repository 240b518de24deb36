/** The numeric helper of lib/utils.ts. */
module Utils {
  import opened JsMath

  /**
    `clamp(value, min, max)` is `Math.min(Math.max(value, min), max)`. With ordered
    bounds it is the point of [min, max] nearest to `value`; with crossed bounds the
    outer `Math.min` always yields `max`.
   */
  function Clamp(value: real, min: real, max: real): (r: real)
    ensures r <= max
    ensures min <= max ==> min <= r
    ensures min <= value <= max ==> r == value
    ensures value < min <= max ==> r == min
    ensures min <= max < value ==> r == max
    ensures max < min ==> r == max
  {
    Min(Max(value, min), max)
  }

  /** Clamping an already clamped value changes nothing. */
  lemma ClampIdempotent(value: real, min: real, max: real)
    ensures Clamp(Clamp(value, min, max), min, max) == Clamp(value, min, max)
  {
    var once := Clamp(value, min, max);
    if min <= max {
      assert min <= once <= max;
    } else {
      assert once == max;
    }
  }

  /** Clamping preserves the order of its inputs. */
  lemma ClampMonotone(v1: real, v2: real, min: real, max: real)
    requires v1 <= v2
    ensures Clamp(v1, min, max) <= Clamp(v2, min, max)
  {
  }
}
