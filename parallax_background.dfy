/** The Framer-Motion page background
    (src/components/ParallaxBackground/ParallaxBackground.tsx): how it
    settles on reduced motion, the particles it keeps, the scroll factor its
    listener writes into a CSS variable, which of its three renders it
    produces, and the parameters of its orbs. */
module ParallaxBackground {
  import opened Text
  import ParallaxUtils

  /** The props this model needs. `reducedMotion` is `undefined` unless
      given. */
  datatype ParallaxProps = ParallaxProps(
    particleCount: int, enableParticles: bool, enableGrid: bool, enableScanLine: bool, enableOrbs: bool,
    reducedMotion: Option<bool>)

  const Defaults := ParallaxProps(30, true, true, true, true, None)

  /** `reducedMotionProp ?? prefersReducedMotion`, as a condition: the prop
      when it is given, `false` included; otherwise the user's preference,
      where an unknown (`null`) preference counts as false. */
  function EffectiveReducedMotion(prop: Option<bool>, preference: Option<bool>): (r: bool)
    ensures prop.Some? ==> r == prop.value
    ensures prop.None? ==> (r <==> preference == Some(true))
  {
    if prop.Some? then prop.value else preference == Some(true)
  }

  /** An explicit prop decides whatever the user's preference, and an
      explicit `reducedMotion={false}` changes the outcome exactly for a
      user who asked for reduced motion. */
  lemma PropOverridesPreference(prop: bool, preference: Option<bool>)
    ensures EffectiveReducedMotion(Some(prop), preference) == prop
    ensures EffectiveReducedMotion(Some(false), preference) != EffectiveReducedMotion(None, preference) <==>
      preference == Some(true)
  {
  }

  /** The memoised particles: none when disabled, otherwise
      `generateParticles(particleCount)` (the call also passes the theme
      and accent colours, which the helper does not take). */
  function Particles(props: ParallaxProps, draws: seq<real>): seq<ParallaxUtils.Particle>
    requires |draws| >= ParallaxUtils.DrawsPerParticle * ParallaxUtils.ParticleCount(props.particleCount)
  {
    if !props.enableParticles then [] else ParallaxUtils.GenerateParticles(props.particleCount, draws)
  }

  /** Disabled particles give an empty list; enabled ones give as many as
      the helper's cap allows. */
  lemma ParticlesGated(props: ParallaxProps, draws: seq<real>)
    requires |draws| >= ParallaxUtils.DrawsPerParticle * ParallaxUtils.ParticleCount(props.particleCount)
    ensures !props.enableParticles ==> Particles(props, draws) == []
    ensures props.enableParticles ==> |Particles(props, draws)| == ParallaxUtils.ParticleCount(props.particleCount)
    ensures |Particles(props, draws)| <= ParallaxUtils.MaxParticles
  {
  }

  // ---------------------------------------------------------------- scroll

  /** `Math.min(scrollY / 1000, 0.5)` */
  function ScrollFactor(scrollY: real): (f: real)
    ensures f <= 0.5
    ensures scrollY >= 500.0 ==> f == 0.5
    ensures scrollY <= 500.0 ==> f == scrollY / 1000.0
  {
    if scrollY / 1000.0 < 0.5 then scrollY / 1000.0 else 0.5
  }

  /** The factor never decreases as the page scrolls down. */
  lemma ScrollFactorMonotone(y1: real, y2: real)
    requires y1 <= y2
    ensures ScrollFactor(y1) <= ScrollFactor(y2)
  {
  }

  /** The scroll listener's lifecycle: whether it is registered, whether
      the container ref holds the element, and the last value written to
      `--scroll-factor` (none yet, or the number). */
  class ScrollEffect {
    var reducedMotion: bool
    var listening: bool
    var containerMounted: bool
    var scrollFactor: Option<real>

    /** A listener is registered exactly when motion is not reduced. */
    ghost predicate Valid()
      reads this
    {
      listening <==> !reducedMotion
    }

    /** The first commit: the container ref is set and the effect runs. */
    constructor (reducedMotion: bool)
      ensures Valid() && this.reducedMotion == reducedMotion
      ensures containerMounted && scrollFactor.None?
    {
      this.reducedMotion := reducedMotion;
      containerMounted := true;
      scrollFactor := None;
      listening := !reducedMotion;
    }

    /** The effect's dependency changed: the old cleanup removes the
      listener, and the effect registers a new one unless motion is now
      reduced. */
    method SetReducedMotion(v: bool)
      requires Valid()
      modifies this
      ensures Valid() && reducedMotion == v
      ensures containerMounted == old(containerMounted) && scrollFactor == old(scrollFactor)
    {
      listening := false;
      reducedMotion := v;
      if !v {
        listening := true;
      }
    }

    /** `handleScroll`, with the `reducedMotion` it was created with. */
    method HandleScroll(scrollY: real)
      modifies this
      ensures reducedMotion || !containerMounted ==> scrollFactor == old(scrollFactor)
      ensures !reducedMotion && containerMounted ==> scrollFactor == Some(ScrollFactor(scrollY))
      ensures reducedMotion == old(reducedMotion) && listening == old(listening)
      ensures containerMounted == old(containerMounted)
    {
      if reducedMotion || !containerMounted {
        return;
      }
      var factor := if scrollY / 1000.0 < 0.5 then scrollY / 1000.0 else 0.5;
      scrollFactor := Some(factor);
    }

    /** A `scroll` event on the window: reaches the handler only while the
      listener is registered. Under reduced motion nothing is written. */
    method WindowScroll(scrollY: real)
      requires Valid()
      modifies this
      ensures Valid()
      ensures reducedMotion ==> scrollFactor == old(scrollFactor)
      ensures !reducedMotion && containerMounted ==> scrollFactor == Some(ScrollFactor(scrollY))
      ensures reducedMotion == old(reducedMotion) && containerMounted == old(containerMounted)
    {
      if listening {
        HandleScroll(scrollY);
      }
    }

    /** Unmount: the cleanup removes the listener and the ref is cleared. */
    method Unmount()
      modifies this
      ensures !listening && !containerMounted
      ensures scrollFactor == old(scrollFactor) && reducedMotion == old(reducedMotion)
    {
      listening := false;
      containerMounted := false;
    }
  }

  // ---------------------------------------------------------------- render

  /** Orb `index`'s animation: the peak of its scale and opacity
      keyframes (each starts and ends at its base), one cycle's length and
      its delay. */
  datatype OrbParams = OrbParams(scaleKeys: seq<real>, opacityKeys: seq<real>, duration: real, delay: real)

  function Orb(index: nat, theme: Option<string>): OrbParams {
    var i := index as real;
    OrbParams(
      [1.0, 1.1 + i * 0.1, 1.0],
      if theme == Some("dark") then [0.2, 0.3 + i * 0.1, 0.2] else [0.1, 0.2 + i * 0.05, 0.1],
      15.0 + i * 5.0,
      i * 2.0)
  }

  /** Orb `i` peaks at scale 1.1 + 0.1i and opacity 0.3 + 0.1i in the dark
      theme (0.2 + 0.05i otherwise), cycles in 15 + 5i seconds after a
      delay of 2i; each keyframe track returns to where it started. */
  lemma OrbParameters(index: nat, theme: Option<string>)
    ensures var o := Orb(index, theme);
      && |o.scaleKeys| == 3 && o.scaleKeys[0] == o.scaleKeys[2] == 1.0
      && o.scaleKeys[1] == 1.1 + 0.1 * index as real
      && |o.opacityKeys| == 3 && o.opacityKeys[0] == o.opacityKeys[2]
      && (theme == Some("dark") ==> o.opacityKeys[1] == 0.3 + 0.1 * index as real)
      && (theme != Some("dark") ==> o.opacityKeys[1] == 0.2 + 0.05 * index as real)
      && o.duration == 15.0 + 5.0 * index as real
      && o.delay == 2.0 * index as real
  {
  }

  /** Later orbs peak higher and run slower. */
  lemma OrbsGrow(i: nat, j: nat, theme: Option<string>)
    requires i < j
    ensures Orb(i, theme).scaleKeys[1] < Orb(j, theme).scaleKeys[1]
    ensures Orb(i, theme).opacityKeys[1] < Orb(j, theme).opacityKeys[1]
    ensures Orb(i, theme).duration < Orb(j, theme).duration
  {
  }

  /** The three renders: under reduced motion a static tinted container
      with the children; before mount an empty tinted container; otherwise
      the layers. */
  datatype ParallaxView =
    | StaticWithChildren(background: string)
    | EmptyContainer(background: string)
    | Full(orbs: seq<OrbParams>, grid: Option<string>, particles: seq<ParallaxUtils.Particle>, scanOpacity: Option<real>)

  function Tint(theme: Option<string>): string {
    if theme == Some("dark") then "bg-gray-900" else "bg-gray-50"
  }

  function GridColor(theme: Option<string>): string {
    if theme == Some("dark") then "rgba(255, 255, 255, 0.1)" else "rgba(0, 0, 0, 0.1)"
  }

  function ScanOpacity(theme: Option<string>): real {
    if theme == Some("dark") then 0.5 else 0.2
  }

  /** The orb layer maps over the particles, one orb per particle. */
  function Orbs(count: nat, theme: Option<string>): (os: seq<OrbParams>)
    ensures |os| == count && forall k :: 0 <= k < count ==> os[k] == Orb(k, theme)
  {
    seq(count, k requires 0 <= k < count => Orb(k, theme))
  }

  function Render(props: ParallaxProps, preference: Option<bool>, mounted: bool, theme: Option<string>, draws: seq<real>): ParallaxView
    requires |draws| >= ParallaxUtils.DrawsPerParticle * ParallaxUtils.ParticleCount(props.particleCount)
  {
    var particles := Particles(props, draws);
    if EffectiveReducedMotion(props.reducedMotion, preference) then StaticWithChildren(Tint(theme))
    else if !mounted then EmptyContainer(Tint(theme))
    else Full(
      if props.enableOrbs then Orbs(|particles|, theme) else [],
      if props.enableGrid then Some(GridColor(theme)) else None,
      if props.enableParticles && |particles| > 0 then particles else [],
      if props.enableScanLine then Some(ScanOpacity(theme)) else None)
  }

  /** Reduced motion wins over everything; otherwise mounting decides
      between the empty container and the layers; both containers take the
      theme's tint. */
  lemma RenderBranches(props: ParallaxProps, preference: Option<bool>, mounted: bool, theme: Option<string>, draws: seq<real>)
    requires |draws| >= ParallaxUtils.DrawsPerParticle * ParallaxUtils.ParticleCount(props.particleCount)
    ensures var v := Render(props, preference, mounted, theme, draws);
      && (v.StaticWithChildren? <==> EffectiveReducedMotion(props.reducedMotion, preference))
      && (v.EmptyContainer? <==> !EffectiveReducedMotion(props.reducedMotion, preference) && !mounted)
      && (v.Full? <==> !EffectiveReducedMotion(props.reducedMotion, preference) && mounted)
      && (!v.Full? ==> v.background == Tint(theme))
  {
  }

  /** In the full render there is one orb per particle when orbs are on,
      so turning particles off also removes every orb; the grid and the
      scan line follow their flags with the theme's colour and opacity. */
  lemma FullRenderLayers(props: ParallaxProps, theme: Option<string>, draws: seq<real>)
    requires |draws| >= ParallaxUtils.DrawsPerParticle * ParallaxUtils.ParticleCount(props.particleCount)
    requires !EffectiveReducedMotion(props.reducedMotion, None)
    ensures var v := Render(props, None, true, theme, draws);
      && |v.orbs| == (if props.enableOrbs && props.enableParticles then ParallaxUtils.ParticleCount(props.particleCount) else 0)
      && (forall k :: 0 <= k < |v.orbs| ==> v.orbs[k] == Orb(k, theme))
      && (v.grid.Some? <==> props.enableGrid) && (v.grid.Some? ==> v.grid.value == GridColor(theme))
      && (v.scanOpacity.Some? <==> props.enableScanLine) && (v.scanOpacity.Some? ==> v.scanOpacity.value == ScanOpacity(theme))
      && (!props.enableParticles ==> v.particles == [])
  {
  }

  /** With the default thirty particles in the dark theme, the opacity peak
      of orb 8 onwards is above 1, the most CSS opacity can show. */
  lemma DefaultDarkOrbsPastFullOpacity(draws: seq<real>)
    requires |draws| >= ParallaxUtils.DrawsPerParticle * ParallaxUtils.MaxParticles
    ensures var v := Render(Defaults, None, true, Some("dark"), draws);
      |v.orbs| == 30 && forall k :: 8 <= k < 30 ==> v.orbs[k].opacityKeys[1] > 1.0
  {
  }
}
