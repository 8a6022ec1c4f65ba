/**
 * Markers and the colour ramp they are taken from. `cm.rainbow(numpy.linspace(0, 1, n))`
 * is a ramp of n evenly spaced colours; the model names a colour by its position
 * on the ramp instead of by its RGBA value.
 */
module Colors {

  /** The `index`-th of `points` evenly spaced colours of the rainbow colour map. */
  datatype RampColor = RampColor(index: nat, points: nat)

  /** `{"marker_size": size, "marker_color": color}` */
  datatype Marker = Marker(size: int, color: RampColor)

  /** The assignments `d[keys[i]] = Marker(size, colour i of the ramp)`, one per key, in order. */
  function Marks<K>(keys: seq<K>, size: int, points: nat): seq<(K, Marker)>
  {
    seq(|keys|, i requires 0 <= i < |keys| => (keys[i], Marker(size, RampColor(i, points))))
  }

  lemma MarksSnoc<K>(keys: seq<K>, k: K, size: int, points: nat)
    ensures Marks(keys + [k], size, points) == Marks(keys, size, points) + [(k, Marker(size, RampColor(|keys|, points)))]
  {
  }

  /** `iter(cm.rainbow(numpy.linspace(0, 1, points)))`: hands the ramp's colours out in order. */
  class ColorIterator {
    const points: nat
    var drawn: nat

    constructor (points: nat)
      ensures this.points == points && drawn == 0
    {
      this.points := points;
      drawn := 0;
    }

    /** `next(colors)`; calling it on an exhausted iterator would raise StopIteration. */
    method Next() returns (c: RampColor)
      requires drawn < points
      modifies this
      ensures c == RampColor(old(drawn), points) && drawn == old(drawn) + 1
    {
      c := RampColor(drawn, points);
      drawn := drawn + 1;
    }
  }
}
