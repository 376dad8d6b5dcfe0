/** The particle layer (src/components/ParallaxBackground/GSAPParticles.tsx):
    the particles its mount effect generates and stores in a ref, the guard
    in front of the animation setup, and the order in which the two run at
    mount. Timelines and easing are not part of this model. */
module GsapParticles {
  import opened RandomSource

  /** The props that shape the particles. */
  datatype Props = Props(count: int, minSize: real, maxSize: real, speed: real)

  const Defaults := Props(30, 2.0, 6.0, 10.0)

  datatype Particle = Particle(
    id: int, x: real, y: real, size: real, opacity: real,
    speed: real, delay: real, translateX: real, translateY: real)

  /** Draws per particle: x, y, size, opacity, speed, delay, translateX,
      translateY. */
  const DrawsPerParticle := 8

  /** `{ length: count }` as an array length: no cap, and nothing for zero
      or less. */
  function Length(count: int): (n: nat)
    ensures count <= 0 ==> n == 0
    ensures count > 0 ==> n == count
  {
    if count <= 0 then 0 else count
  }

  function MakeParticle(i: nat, props: Props, d: seq<real>): Particle
    requires |d| == DrawsPerParticle
  {
    Particle(i,
      d[0] * 100.0,
      d[1] * 100.0,
      d[2] * (props.maxSize - props.minSize) + props.minSize,
      d[3] * 0.5 + 0.1,
      d[4] * props.speed + props.speed / 2.0,
      d[5] * 5.0,
      (d[6] - 0.5) * 200.0,
      (d[7] - 0.5) * 200.0)
  }

  /** The ranges a particle's fields fall in; the size and speed ranges
      need a non-empty size range and a positive speed. */
  predicate InRanges(p: Particle, props: Props) {
    && 0.0 <= p.x < 100.0
    && 0.0 <= p.y < 100.0
    && SizeInRange(p.size, props)
    && 0.1 <= p.opacity < 0.6
    && SpeedInRange(p.speed, props)
    && 0.0 <= p.delay < 5.0
    && -100.0 <= p.translateX < 100.0
    && -100.0 <= p.translateY < 100.0
  }

  predicate SizeInRange(size: real, props: Props) {
    props.minSize < props.maxSize ==> props.minSize <= size < props.maxSize
  }

  predicate SpeedInRange(speed: real, props: Props) {
    props.speed > 0.0 ==> props.speed / 2.0 <= speed < 3.0 * props.speed / 2.0
  }

  lemma SizeDraw(r: real, props: Props)
    requires 0.0 <= r < 1.0
    ensures SizeInRange(r * (props.maxSize - props.minSize) + props.minSize, props)
  {
    if props.minSize < props.maxSize {
      var size := r * (props.maxSize - props.minSize) + props.minSize;
      ScaledDraw(r, props.maxSize - props.minSize, size - props.minSize);
    }
  }

  lemma SpeedDraw(r: real, props: Props)
    requires 0.0 <= r < 1.0
    ensures SpeedInRange(r * props.speed + props.speed / 2.0, props)
  {
    if props.speed > 0.0 {
      ScaledDraw(r, props.speed, r * props.speed);
    }
  }

  lemma ParticleInRanges(i: nat, props: Props, d: seq<real>)
    requires |d| == DrawsPerParticle && IsRandomSource(d)
    ensures InRanges(MakeParticle(i, props, d), props)
  {
    SizeDraw(d[2], props);
    SpeedDraw(d[4], props);
  }

  /** The array the mount effect builds. */
  function InitParticles(props: Props, draws: seq<real>): (ps: seq<Particle>)
    requires |draws| >= DrawsPerParticle * Length(props.count)
    ensures |ps| == Length(props.count)
    ensures forall i :: 0 <= i < |ps| ==> ps[i].id == i
  {
    var n := Length(props.count);
    seq(n, i requires 0 <= i < n =>
      MakeParticle(i, props, draws[DrawsPerParticle * i..DrawsPerParticle * i + DrawsPerParticle]))
  }

  /** With genuine draws every generated particle is in range. */
  lemma InitParticlesInRanges(props: Props, draws: seq<real>)
    requires |draws| >= DrawsPerParticle * Length(props.count) && IsRandomSource(draws)
    ensures forall p :: p in InitParticles(props, draws) ==> InRanges(p, props)
  {
    var ps := InitParticles(props, draws);
    forall p | p in ps
      ensures InRanges(p, props)
    {
      var i :| 0 <= i < |ps| && ps[i] == p;
      var d := draws[DrawsPerParticle * i..DrawsPerParticle * i + DrawsPerParticle];
      assert IsRandomSource(d) by {
        forall k | 0 <= k < |d| ensures 0.0 <= d[k] < 1.0 {
          assert d[k] == draws[DrawsPerParticle * i + k];
        }
      }
      ParticleInRanges(i, props, d);
    }
  }

  /** The particle elements in the page: the render maps over the ref, so
      there is one element per particle of the ref at render time. */
  function Rendered(particles: seq<Particle>): (m: seq<bool>)
    ensures |m| == |particles| && forall k :: 0 <= k < |m| ==> m[k]
  {
    seq(|particles|, _ => true)
  }

  /** The component's refs: the `particles` array and, for the model, the
      indices the animation setup has given a timeline so far. */
  class ParticleLayer {
    var particles: seq<Particle>
    var animated: seq<nat>
    var mounted: bool

    constructor ()
      ensures particles == [] && animated == [] && !mounted
    {
      particles := [];
      animated := [];
      mounted := false;
    }

    /** The mount effect: nothing outside a browser, otherwise a fresh
        array of particles. Writing the ref does not render again. */
    method InitEffect(windowDefined: bool, props: Props, draws: seq<real>)
      requires |draws| >= DrawsPerParticle * Length(props.count)
      modifies this`particles
      ensures windowDefined ==> particles == InitParticles(props, draws)
      ensures !windowDefined ==> particles == old(particles)
    {
      if !windowDefined {
        return;
      }
      particles := InitParticles(props, draws);
    }

    /** The `useGSAP` callback over the ref as it is when it runs. */
    method AnimationSetup(containerMounted: bool, elementMounted: seq<bool>)
      modifies this`animated
      ensures animated == old(animated) + Animated(containerMounted, particles, elementMounted, 0)
    {
      animated := animated + Animated(containerMounted, particles, elementMounted, 0);
    }

    /** Mounting: the first render maps over the still empty ref; then the
        layout effect `useGSAP` registers runs before the passive effect that
        fills the ref, and neither has a dependency that changes afterwards. */
    method Mount(windowDefined: bool, containerMounted: bool, props: Props, draws: seq<real>)
      requires !mounted && particles == [] && animated == []
      requires |draws| >= DrawsPerParticle * Length(props.count)
      modifies this
      ensures mounted
      ensures animated == MountAnimated(containerMounted, [])
      ensures windowDefined ==> particles == InitParticles(props, draws)
    {
      var elements := Rendered(particles);
      AnimationSetup(containerMounted, elements);
      InitEffect(windowDefined, props, draws);
      mounted := true;
    }
  }

  /** The timelines the mount sequence creates, given the ref at the first
      render. */
  function MountAnimated(containerMounted: bool, initial: seq<Particle>): seq<nat> {
    Animated(containerMounted, initial, Rendered(initial), 0)
  }

  /** As written, the mount leaves a full ref of particles and not one
      timeline: the animation setup saw the empty ref. */
  lemma MountAnimatesNothing(containerMounted: bool, props: Props, draws: seq<real>)
    requires props.count > 0 && |draws| >= DrawsPerParticle * Length(props.count)
    ensures |InitParticles(props, draws)| == props.count > 0
    ensures MountAnimated(containerMounted, []) == []
  {
  }

  /** The animation setup as evidently intended: run over the generated
      particles once they are rendered. */
  function AnimatedAfterInit(containerMounted: bool, props: Props, draws: seq<real>): seq<nat>
    requires |draws| >= DrawsPerParticle * Length(props.count)
  {
    var ps := InitParticles(props, draws);
    Animated(containerMounted, ps, Rendered(ps), 0)
  }

  /** Run after the ref is filled, the setup gives every particle exactly
      one timeline, in index order, once the container is there. */
  lemma EveryParticleAnimatedAfterInit(props: Props, draws: seq<real>)
    requires |draws| >= DrawsPerParticle * Length(props.count)
    ensures forall i :: i in AnimatedAfterInit(true, props, draws) <==> 0 <= i < Length(props.count)
    ensures forall k, l :: 0 <= k < l < |AnimatedAfterInit(true, props, draws)| ==>
      AnimatedAfterInit(true, props, draws)[k] < AnimatedAfterInit(true, props, draws)[l]
  {
    var ps := InitParticles(props, draws);
    var r := AnimatedAfterInit(true, props, draws);
    forall i | 0 <= i < Length(props.count)
      ensures i in r
    {
      AnimatedComplete(ps, Rendered(ps), 0, i);
    }
  }

  /** The indices the animation setup gives a timeline, from index `from`
      on: those with a mounted element, and none at all when the container
      is missing or there are no particles. */
  function Animated(containerMounted: bool, particles: seq<Particle>, elementMounted: seq<bool>, from: nat): (r: seq<nat>)
    requires from <= |particles|
    ensures forall k :: 0 <= k < |r| ==> from <= r[k] < |particles|
    ensures forall k :: 0 <= k < |r| ==> r[k] < |elementMounted| && elementMounted[r[k]]
    ensures forall k, l :: 0 <= k < l < |r| ==> r[k] < r[l]
    decreases |particles| - from
  {
    if !containerMounted || |particles| == 0 || from == |particles| then []
    else
      var rest := Animated(containerMounted, particles, elementMounted, from + 1);
      if from < |elementMounted| && elementMounted[from] then [from] + rest else rest
  }

  /** Every particle whose element is mounted is animated, once. */
  lemma {:induction false} AnimatedComplete(particles: seq<Particle>, elementMounted: seq<bool>, from: nat, i: nat)
    requires from <= i < |particles| && i < |elementMounted| && elementMounted[i]
    ensures i in Animated(true, particles, elementMounted, from)
    decreases |particles| - from
  {
    if from < i {
      AnimatedComplete(particles, elementMounted, from + 1, i);
    }
  }

  /** Without particles, or before the container mounts, nothing is
      animated. */
  lemma NothingToAnimate(containerMounted: bool, particles: seq<Particle>, elementMounted: seq<bool>)
    requires !containerMounted || particles == []
    ensures Animated(containerMounted, particles, elementMounted, 0) == []
  {
  }
}
