/** The helpers of the parallax background
    (src/components/ParallaxBackground/utils.ts): random particles and
    gradients, scroll progress, clamping and linear range mapping. The
    random source is a sequence of draws in [0, 1), consumed in the order
    the code calls `Math.random()`; numbers are reals, with JavaScript's
    infinities and NaN written out where a division by zero can reach
    them. */
module ParallaxUtils {
  import opened Text
  import opened RandomSource

  // ---------------------------------------------------------------- particles

  /** The `Particle` type of the shared type declarations. */
  datatype Particle = Particle(id: int, size: real, x: real, y: real, duration: real, delay: real)

  /** The most particles one call produces. */
  const MaxParticles := 50

  /** Draws per particle: size, x, y, duration, delay. */
  const DrawsPerParticle := 5

  /** `Math.min(count, 50)` as an array length: negative counts give an
      empty array. */
  function ParticleCount(count: int): (n: nat)
    ensures n <= MaxParticles
    ensures count <= 0 ==> n == 0
    ensures 0 <= count <= MaxParticles ==> n == count
    ensures count >= MaxParticles ==> n == MaxParticles
  {
    if count <= 0 then 0 else if count < MaxParticles then count else MaxParticles
  }

  /** Particle `i`, built from its five draws. */
  function MakeParticle(i: nat, d: seq<real>): Particle
    requires |d| == DrawsPerParticle
  {
    Particle(i, d[0] * 4.0 + 2.0, d[1] * 100.0, d[2] * 100.0, 5.0 + d[3] * 10.0, d[4] * 5.0)
  }

  /** The ranges a particle's fields fall in. */
  predicate InRanges(p: Particle) {
    && 2.0 <= p.size < 6.0
    && 0.0 <= p.x < 100.0
    && 0.0 <= p.y < 100.0
    && 5.0 <= p.duration < 15.0
    && 0.0 <= p.delay < 5.0
  }

  /** `generateParticles(count)` */
  function GenerateParticles(count: int, draws: seq<real>): (ps: seq<Particle>)
    requires |draws| >= DrawsPerParticle * ParticleCount(count)
    ensures |ps| == ParticleCount(count)
    ensures forall i :: 0 <= i < |ps| ==> ps[i].id == i
    ensures IsRandomSource(draws) ==> forall i :: 0 <= i < |ps| ==> InRanges(ps[i])
  {
    var n := ParticleCount(count);
    seq(n, i requires 0 <= i < n =>
      MakeParticle(i, draws[DrawsPerParticle * i..DrawsPerParticle * i + DrawsPerParticle]))
  }

  /** Particle `i` takes exactly draws `5i` to `5i + 4`: size, x, y,
      duration and delay, in that order. */
  lemma ParticleDraws(count: int, draws: seq<real>, i: int)
    requires |draws| >= DrawsPerParticle * ParticleCount(count)
    requires 0 <= i < ParticleCount(count)
    ensures var p := GenerateParticles(count, draws)[i];
      && p.size == draws[5 * i] * 4.0 + 2.0
      && p.x == draws[5 * i + 1] * 100.0
      && p.y == draws[5 * i + 2] * 100.0
      && p.duration == 5.0 + draws[5 * i + 3] * 10.0
      && p.delay == draws[5 * i + 4] * 5.0
  {
  }

  // ---------------------------------------------------------------- gradients

  /** The four pairs used when no colours are given. */
  const DefaultGradients: seq<(string, string)> := [
    ("#3b82f6", "#8b5cf6"),
    ("#8b5cf6", "#ec4899"),
    ("#10b981", "#3b82f6"),
    ("#f59e0b", "#ec4899")
  ]

  /** `Math.floor(r * 4)`, an index into the defaults. */
  function DefaultPick(r: real): (k: int)
    requires 0.0 <= r < 1.0
    ensures 0 <= k < |DefaultGradients|
    ensures k as real <= r * 4.0 < k as real + 1.0
  {
    (r * 4.0).Floor
  }

  function GradientCss(start: string, end: string): string {
    "linear-gradient(45deg, " + start + ", " + end + ")"
  }

  /** `generateGradient(colors)`, with the one draw it makes when no pair
      is given. */
  function GenerateGradient(colors: Option<(string, string)>, r: real): (css: string)
    requires 0.0 <= r < 1.0
    ensures colors.Some? ==> css == GradientCss(colors.value.0, colors.value.1)
    ensures colors.None? ==> exists k :: 0 <= k < |DefaultGradients| && css == GradientCss(DefaultGradients[k].0, DefaultGradients[k].1)
  {
    var pair := if colors.Some? then colors.value else DefaultGradients[DefaultPick(r)];
    GradientCss(pair.0, pair.1)
  }

  /** The CSS text gives back the pair it was built from: reading the two
      colours out of it recovers `start` and `end`. */
  lemma GradientKeepsColours(start: string, end: string)
    ensures var css := GradientCss(start, end);
      && css[..|"linear-gradient(45deg, "|] == "linear-gradient(45deg, "
      && css[|"linear-gradient(45deg, "|..|"linear-gradient(45deg, "| + |start|] == start
      && css[|"linear-gradient(45deg, "| + |start| + 2..|css| - 1] == end
      && css[|css| - 1] == ')'
  {
    var prefix := "linear-gradient(45deg, ";
    var css := GradientCss(start, end);
    assert css == prefix + start + ", " + end + ")";
  }

  // ---------------------------------------------------------------- JavaScript numbers

  /** A JavaScript number as far as these helpers need it. */
  datatype Number = Finite(value: real) | PosInf | NegInf | NaN

  /** `a / b` */
  function Div(a: real, b: real): (r: Number)
    ensures b != 0.0 ==> r == Finite(a / b)
    ensures b == 0.0 ==> (r.NaN? <==> a == 0.0)
  {
    if b != 0.0 then Finite(a / b)
    else if a == 0.0 then NaN
    else if (a > 0.0) == (b >= 0.0) then PosInf
    else NegInf
  }

  /** `Math.max(a, x)` for a finite `a`: NaN wins. */
  function Max(a: real, x: Number): Number {
    match x
    case Finite(v) => Finite(if v > a then v else a)
    case PosInf => PosInf
    case NegInf => Finite(a)
    case NaN => NaN
  }

  /** `Math.min(a, x)` for a finite `a`: NaN wins. */
  function Min(a: real, x: Number): Number {
    match x
    case Finite(v) => Finite(if v < a then v else a)
    case PosInf => Finite(a)
    case NegInf => NegInf
    case NaN => NaN
  }

  /** `x + b` for a finite `b`. */
  function Add(x: Number, b: real): Number {
    match x
    case Finite(v) => Finite(v + b)
    case _ => x
  }

  // ---------------------------------------------------------------- scroll progress

  /** `calculateScrollProgress(scrollY, start, end)` */
  function ScrollProgress(scrollY: real, start: real, end: real): (p: Number)
    ensures end != start ==> p.Finite? && 0.0 <= p.value <= 1.0
    ensures start < end && scrollY <= start ==> p == Finite(0.0)
    ensures start < end && scrollY >= end ==> p == Finite(1.0)
    ensures start < end && start <= scrollY <= end ==> p == Finite((scrollY - start) / (end - start))
  {
    var p := Min(1.0, Max(0.0, Div(scrollY - start, end - start)));
    if start < end then QuotientBounds(scrollY - start, end - start); p else p
  }

  /** Where `q / w` lies against 0 and 1 for a positive `w`. */
  lemma QuotientBounds(q: real, w: real)
    requires w > 0.0
    ensures q <= 0.0 ==> q / w <= 0.0
    ensures 0.0 <= q <= w ==> 0.0 <= q / w <= 1.0
    ensures q >= w ==> q / w >= 1.0
  {
    var d := q / w;
    assert d * w == q;
    if q <= w && d > 1.0 {
      assert d * w > 1.0 * w;
    }
  }

  /** With an empty range the division is by zero: past the point the
      result is 1, before it 0, and exactly at it NaN. */
  lemma ScrollProgressEmptyRange(scrollY: real, point: real)
    ensures scrollY > point ==> ScrollProgress(scrollY, point, point) == Finite(1.0)
    ensures scrollY < point ==> ScrollProgress(scrollY, point, point) == Finite(0.0)
    ensures ScrollProgress(point, point, point).NaN?
  {
  }

  /** Progress never goes down as the page scrolls further. */
  lemma ScrollProgressMonotone(y1: real, y2: real, start: real, end: real)
    requires start < end && y1 <= y2
    ensures ScrollProgress(y1, start, end).value <= ScrollProgress(y2, start, end).value
  {
    var w := end - start;
    assert (y1 - start) / w <= (y2 - start) / w by {
      assert (y2 - start) / w - (y1 - start) / w == (y2 - y1) / w;
    }
  }

  // ---------------------------------------------------------------- clamp and mapRange

  /** `clamp(value, min, max)` */
  function Clamp(value: real, min: real, max: real): (r: real)
    ensures min <= max ==> min <= r <= max
    ensures min <= value <= max ==> r == value
    ensures min <= max && value < min ==> r == min
    ensures value > max ==> r == max
    ensures min > max ==> r == max
  {
    var lifted := if value > min then value else min;
    if lifted < max then lifted else max
  }

  /** Clamping twice changes nothing more. */
  lemma ClampIdempotent(value: real, min: real, max: real)
    requires min <= max
    ensures Clamp(Clamp(value, min, max), min, max) == Clamp(value, min, max)
  {
  }

  /** `mapRange(value, inMin, inMax, outMin, outMax)` */
  function MapRange(value: real, inMin: real, inMax: real, outMin: real, outMax: real): (r: Number)
    ensures inMin != inMax ==> r.Finite?
  {
    Add(Div((value - inMin) * (outMax - outMin), inMax - inMin), outMin)
  }

  /** The ends of the input range go to the ends of the output range. */
  lemma MapRangeEndpoints(inMin: real, inMax: real, outMin: real, outMax: real)
    requires inMin != inMax
    ensures MapRange(inMin, inMin, inMax, outMin, outMax) == Finite(outMin)
    ensures MapRange(inMax, inMin, inMax, outMin, outMax) == Finite(outMax)
  {
    var w := inMax - inMin;
    assert (inMax - inMin) * (outMax - outMin) / w == outMax - outMin;
  }

  /** Mapping there and back returns the value, when neither range is
      empty. */
  lemma MapRangeInverse(value: real, inMin: real, inMax: real, outMin: real, outMax: real)
    requires inMin != inMax && outMin != outMax
    ensures var y := MapRange(value, inMin, inMax, outMin, outMax).value;
      MapRange(y, outMin, outMax, inMin, inMax) == Finite(value)
  {
    var a := inMax - inMin;
    var b := outMax - outMin;
    var t := (value - inMin) / a;
    var y := MapRange(value, inMin, inMax, outMin, outMax).value;
    assert (value - inMin) * b / a == t * b;
    assert y - outMin == t * b;
    assert (y - outMin) * a / b == t * a;
    assert t * a == value - inMin;
  }

  /** Values outside the input range are not clamped: they map outside
      the output range. */
  lemma MapRangeExtrapolates(inMin: real, inMax: real, outMin: real, outMax: real)
    requires inMin < inMax && outMin < outMax
    ensures MapRange(inMax + (inMax - inMin), inMin, inMax, outMin, outMax).value > outMax
  {
    var a := inMax - inMin;
    var b := outMax - outMin;
    assert (2.0 * a) * b / a == 2.0 * b;
  }
}
