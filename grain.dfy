/** One grain as `addGrain` builds it: a dynamic circle at the pointer,
    with a radius jittered by the random draw `r` and a fill colour that
    is a function of the emission counter `k` alone. */
module Grain {
  import opened Base
  import opened Bodies

  const GrainMaterial := Material(Some(10.0), Some(0.01), Some(0.001))

  /** Frequencies of the red and green channels, in turns per grain. */
  const RedFrequency: real := 0.01
  const GreenFrequency: real := 0.05

  /** `5 + Math.random()*8`. */
  function Radius(r: real): (radius: real)
    ensures 0.0 <= r < 1.0 ==> 5.0 <= radius < 13.0
    ensures r == 0.0 ==> radius == 5.0
  {
    5.0 + r * 8.0
  }

  /** One colour channel: `150 + 50*cos(2*PI*frequency*k)`. */
  function Channel(cos: real -> real, frequency: real, k: int): (c: real)
    ensures CosBounded(cos) ==> 100.0 <= c <= 200.0
    ensures k == 0 && cos(0.0) == 1.0 ==> c == 200.0
  {
    assert k == 0 ==> 2.0 * Pi * frequency * k as real == 0.0;
    150.0 + 50.0 * cos(2.0 * Pi * frequency * k as real)
  }

  /** The `rgb(...)` fill of the grain emitted with counter value `k`. */
  function Colour(cos: real -> real, k: int): (p: Paint)
    ensures p.Rgb? && p.blue == 150.0
    ensures CosBounded(cos) ==> 100.0 <= p.red <= 200.0 && 100.0 <= p.green <= 200.0
    ensures k == 0 && cos(0.0) == 1.0 ==> p == Rgb(200.0, 200.0, 150.0)
  {
    Rgb(Channel(cos, RedFrequency, k), Channel(cos, GreenFrequency, k), 150.0)
  }

  /** The body `addGrain` adds at (x, y) for draw `r` and counter `k`. */
  function GrainAt(x: real, y: real, r: real, k: int, cos: real -> real): (g: Body)
    ensures g.x == x && g.y == y && !g.isStatic && g.angle == 0.0 && g.chamfer.None?
    ensures g.shape.Circle? && (0.0 <= r < 1.0 ==> 5.0 <= g.shape.radius < 13.0)
    ensures g.material.friction == Some(10.0) && g.material.restitution == Some(0.01)
    ensures g.material.density == Some(0.001)
    ensures g.style.fill.Rgb? && g.style.fill.blue == 150.0
    ensures CosBounded(cos) ==>
              100.0 <= g.style.fill.red <= 200.0 && 100.0 <= g.style.fill.green <= 200.0
    ensures g.style.stroke == Some("#444444") && g.style.lineWidth == Some(1.0)
  {
    Body(x, y, Circle(Radius(r)), false, 0.0, None, GrainMaterial,
         Style(Colour(cos, k), Some("#444444"), Some(1.0)))
  }

  /** The style of a grain depends on the counter only: neither the
      position nor the random draw changes it. */
  lemma StyleDependsOnlyOnCounter(x1: real, y1: real, r1: real, x2: real, y2: real, r2: real,
                                  k: int, cos: real -> real)
    ensures GrainAt(x1, y1, r1, k, cos).style == GrainAt(x2, y2, r2, k, cos).style
    ensures GrainAt(x1, y1, r1, k, cos).material == GrainAt(x2, y2, r2, k, cos).material
  {
  }

  /** n full turns leave a periodic cosine unchanged. */
  lemma {:induction false} CosTurns(cos: real -> real, a: real, n: nat)
    requires CosPeriodic(cos)
    ensures cos(a + 2.0 * Pi * n as real) == cos(a)
  {
    if n > 0 {
      CosTurns(cos, a, n - 1);
      assert a + 2.0 * Pi * n as real == (a + 2.0 * Pi * (n - 1) as real) + 2.0 * Pi;
    }
  }

  /** With a periodic cosine the colours repeat every 100 grains: after
      100 grains red has made one full turn and green five. */
  lemma ColourCycle(cos: real -> real, k: int)
    requires CosPeriodic(cos)
    ensures Colour(cos, k + 100) == Colour(cos, k)
  {
    var red, green := 2.0 * Pi * RedFrequency * k as real, 2.0 * Pi * GreenFrequency * k as real;
    assert 2.0 * Pi * RedFrequency * (k + 100) as real == red + 2.0 * Pi * 1 as real;
    assert 2.0 * Pi * GreenFrequency * (k + 100) as real == green + 2.0 * Pi * 5 as real;
    CosTurns(cos, red, 1);
    CosTurns(cos, green, 5);
  }
}
