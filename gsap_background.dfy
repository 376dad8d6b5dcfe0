/** The GSAP-driven page background
    (src/components/ParallaxBackground/GSAPBackground.tsx): the colours it
    takes from the theme, the animations its `useGSAP` callback starts, and
    the layers it renders. Each started animation is recorded by its
    target values; the tweening itself is not part of this model. */
module GsapBackground {
  import opened Text
  import opened RandomSource
  import GsapParticles

  /** A colour for each of the two themes. */
  datatype ColorPair = ColorPair(light: string, dark: string)

  datatype BackgroundProps = BackgroundProps(
    particleCount: int, baseColor: ColorPair, accentColor: ColorPair,
    enableParticles: bool, enableGrid: bool, enableScanLine: bool, enableOrbs: bool,
    reducedMotion: bool)

  /** The defaults of the destructured props. */
  const Defaults := BackgroundProps(30, ColorPair("#f8fafc", "#0f172a"), ColorPair("#3b82f6", "#818cf8"),
    true, true, true, true, false)

  /** `theme === 'dark' ? pair.dark : pair.light`: `system` and an unset
      theme both take the light colour. */
  function ThemeColor(pair: ColorPair, theme: Option<string>): (c: string)
    ensures theme == Some("dark") ==> c == pair.dark
    ensures theme != Some("dark") ==> c == pair.light
  {
    if theme == Some("dark") then pair.dark else pair.light
  }

  // ---------------------------------------------------------------- animations

  /** A repeating `gsap.to` on an orb: the values it tweens to, the length
      of one half-cycle, its delay, `repeat` (-1 is forever) and `yoyo`. */
  datatype OrbTween = OrbTween(scale: real, opacity: real, duration: real, delay: real, repeat: int, yoyo: bool)

  /** The first orb's keyframes and full cycle, and everyone else's. */
  function ScaleKeys(i: nat): seq<real> { if i == 0 then [0.8, 1.1, 0.9] else [0.7, 1.0, 0.8] }
  function OpacityKeys(i: nat): seq<real> { if i == 0 then [0.2, 0.3, 0.2] else [0.1, 0.2, 0.1] }
  function Cycle(i: nat): real { if i == 0 then 15.0 else 20.0 }

  /** The tween the `forEach` starts for orb `i`: the middle keyframes as
      targets, half the cycle as duration. */
  function TweenFor(i: nat): OrbTween {
    OrbTween(ScaleKeys(i)[1], OpacityKeys(i)[1], Cycle(i) / 2.0, 2.0 * i as real, -1, true)
  }

  /** The presets of the two orbs, and the forever-repeating yoyo with a
      delay of two seconds per index that every orb shares. */
  lemma OrbPresets(i: nat)
    ensures TweenFor(0) == OrbTween(1.1, 0.3, 7.5, 0.0, -1, true)
    ensures TweenFor(1) == OrbTween(1.0, 0.2, 10.0, 2.0, -1, true)
    ensures TweenFor(i).delay == 2.0 * i as real && TweenFor(i).repeat == -1 && TweenFor(i).yoyo
  {
  }

  /** The tweens for orbs `0`, ..., `n - 1`. */
  function Tweens(n: nat): (ts: seq<OrbTween>)
    ensures |ts| == n && forall k :: 0 <= k < n ==> ts[k] == TweenFor(k)
  {
    seq(n, k requires 0 <= k < n => TweenFor(k))
  }

  /** The one-off fade-in of the gradient layer: from opacity 0 to 0.6. */
  datatype Fade = Fade(from: real, to: real, duration: real)

  const GradientFade := Fade(0.0, 0.6, 1.5)

  /** The `useGSAP` callback. `gradientMounted` says whether the gradient
      ref holds an element and `orbCount` how many orb refs are filled. */
  method StartAnimations(reducedMotion: bool, enableOrbs: bool, gradientMounted: bool, orbCount: nat)
    returns (fade: Option<Fade>, tweens: seq<OrbTween>)
    ensures reducedMotion ==> fade.None? && tweens == []
    ensures !reducedMotion ==> (fade.Some? <==> gradientMounted)
    ensures fade.Some? ==> fade.value == GradientFade
    ensures !reducedMotion && enableOrbs ==> tweens == Tweens(orbCount)
    ensures !enableOrbs ==> tweens == []
  {
    fade := None;
    tweens := [];
    if reducedMotion {
      return;
    }
    if gradientMounted {
      fade := Some(GradientFade);
    }
    if enableOrbs && orbCount > 0 {
      var i := 0;
      while i < orbCount
        invariant 0 <= i <= orbCount
        invariant tweens == Tweens(i)
      {
        var scale := if i == 0 then [0.8, 1.1, 0.9] else [0.7, 1.0, 0.8];
        var opacity := if i == 0 then [0.2, 0.3, 0.2] else [0.1, 0.2, 0.1];
        var duration := if i == 0 then 15.0 else 20.0;
        var delay := i as real * 2.0;
        tweens := tweens + [OrbTween(scale[1], opacity[1], duration / 2.0, delay, -1, true)];
        i := i + 1;
      }
    }
  }

  // ---------------------------------------------------------------- layers

  /** How many orbs the orb layer renders (`[1, 2].map`). */
  const OrbCount := 2

  /** The props handed to the particle layer. */
  function ParticleProps(props: BackgroundProps): GsapParticles.Props {
    GsapParticles.Props(props.particleCount, 1.0, 4.0, 15.0)
  }

  function GridColor(theme: Option<string>): string {
    if theme == Some("dark") then "rgba(255, 255, 255, 0.1)" else "rgba(0, 0, 0, 0.1)"
  }

  function ScanOpacity(theme: Option<string>): real {
    if theme == Some("dark") then 0.5 else 0.2
  }

  /** One layer of the animated render. */
  datatype Layer =
    | Gradient(accent: string, base: string)
    | Grid(color: string)
    | Orbs(count: nat, color: string)
    | Particles(props: GsapParticles.Props, color: string)
    | ScanLine(opacity: real)
    | Content

  /** `[layer]` when the flag is set, nothing otherwise. */
  function Optional(flag: bool, layer: Layer): (ls: seq<Layer>)
    ensures forall l :: l in ls <==> flag && l == layer
  {
    if flag then [layer] else []
  }

  /** The whole render: a plain tinted container around the children, or
      the layered one. */
  datatype BackgroundView = Static(background: string) | Layered(layers: seq<Layer>)

  function Render(props: BackgroundProps, theme: Option<string>): BackgroundView {
    if props.reducedMotion then
      Static(if theme == Some("dark") then "bg-gray-900" else "bg-gray-50")
    else
      var accent := ThemeColor(props.accentColor, theme);
      Layered(
        [Gradient(accent, ThemeColor(props.baseColor, theme))]
        + Optional(props.enableGrid, Grid(GridColor(theme)))
        + Optional(props.enableOrbs, Orbs(OrbCount, accent))
        + Optional(props.enableParticles, Particles(ParticleProps(props), accent))
        + Optional(props.enableScanLine, ScanLine(ScanOpacity(theme)))
        + [Content])
  }

  /** Reduced motion renders the static container, without any layer. */
  lemma ReducedMotionStatic(props: BackgroundProps, theme: Option<string>)
    ensures Render(props, theme).Static? <==> props.reducedMotion
  {
  }

  /** What the animated render holds: the gradient, the content, and each
      optional layer exactly when its flag is set. */
  lemma LayerMembers(props: BackgroundProps, theme: Option<string>)
    requires !props.reducedMotion
    ensures var accent := ThemeColor(props.accentColor, theme);
      forall l :: l in Render(props, theme).layers <==>
        || l == Gradient(accent, ThemeColor(props.baseColor, theme))
        || (props.enableGrid && l == Grid(GridColor(theme)))
        || (props.enableOrbs && l == Orbs(OrbCount, accent))
        || (props.enableParticles && l == Particles(ParticleProps(props), accent))
        || (props.enableScanLine && l == ScanLine(ScanOpacity(theme)))
        || l == Content
  {
    var accent := ThemeColor(props.accentColor, theme);
    var g := Optional(props.enableGrid, Grid(GridColor(theme)));
    var o := Optional(props.enableOrbs, Orbs(OrbCount, accent));
    var p := Optional(props.enableParticles, Particles(ParticleProps(props), accent));
    var s := Optional(props.enableScanLine, ScanLine(ScanOpacity(theme)));
    assert Render(props, theme).layers == [Gradient(accent, ThemeColor(props.baseColor, theme))] + g + o + p + s + [Content];
  }

  /** The animated render starts with the gradient in the theme's colours
      and ends with the content. */
  lemma LayerEnds(props: BackgroundProps, theme: Option<string>)
    requires !props.reducedMotion
    ensures var ls := Render(props, theme).layers;
      && ls[0] == Gradient(ThemeColor(props.accentColor, theme), ThemeColor(props.baseColor, theme))
      && ls[|ls| - 1] == Content
  {
  }

  /** The grid is there exactly when enabled, in the theme's colour, and
      exactly two orbs are there exactly when orbs are enabled. */
  lemma GridAndOrbLayers(props: BackgroundProps, theme: Option<string>)
    requires !props.reducedMotion
    ensures var ls := Render(props, theme).layers;
      && ((exists l :: l in ls && l.Grid?) <==> props.enableGrid)
      && (forall l :: l in ls && l.Grid? ==> l.color == GridColor(theme))
      && ((exists l :: l in ls && l.Orbs?) <==> props.enableOrbs)
      && (forall l :: l in ls && l.Orbs? ==> l.count == OrbCount)
  {
    LayerMembers(props, theme);
    var accent := ThemeColor(props.accentColor, theme);
    if props.enableGrid { assert Grid(GridColor(theme)) in Render(props, theme).layers; }
    if props.enableOrbs { assert Orbs(OrbCount, accent) in Render(props, theme).layers; }
  }

  /** The particle layer is there exactly when enabled, with sizes 1 to 4
      and speed 15; the scan line exactly when enabled, with the theme's
      opacity. */
  lemma ParticleAndScanLayers(props: BackgroundProps, theme: Option<string>)
    requires !props.reducedMotion
    ensures var ls := Render(props, theme).layers;
      && ((exists l :: l in ls && l.Particles?) <==> props.enableParticles)
      && (forall l :: l in ls && l.Particles? ==> l.props == GsapParticles.Props(props.particleCount, 1.0, 4.0, 15.0))
      && ((exists l :: l in ls && l.ScanLine?) <==> props.enableScanLine)
      && (forall l :: l in ls && l.ScanLine? ==> l.opacity == ScanOpacity(theme))
  {
    LayerMembers(props, theme);
    var accent := ThemeColor(props.accentColor, theme);
    if props.enableParticles { assert Particles(ParticleProps(props), accent) in Render(props, theme).layers; }
    if props.enableScanLine { assert ScanLine(ScanOpacity(theme)) in Render(props, theme).layers; }
  }

  /** The dark theme picks the `.dark` colours, anything else the `.light`
      ones, for the gradient and the orbs alike. */
  lemma ThemeColours(props: BackgroundProps)
    requires !props.reducedMotion
    ensures Render(props, Some("dark")).layers[0] == Gradient(props.accentColor.dark, props.baseColor.dark)
    ensures Render(props, Some("system")).layers[0] == Gradient(props.accentColor.light, props.baseColor.light)
    ensures Render(props, None).layers[0] == Gradient(props.accentColor.light, props.baseColor.light)
  {
  }

  /** In the full render the orb refs hold both orbs, so the callback
      starts exactly the two preset tweens. */
  lemma RenderedOrbsAnimated()
    ensures Tweens(OrbCount) == [TweenFor(0), TweenFor(1)]
    ensures Tweens(OrbCount)[0].scale == 1.1 && Tweens(OrbCount)[1].scale == 1.0
  {
  }

  /** Every particle the particle layer generates from these props is 1 to
      4 pixels across and has a speed between 7.5 and 22.5. */
  lemma ParticleLayerRanges(props: BackgroundProps, draws: seq<real>)
    requires |draws| >= GsapParticles.DrawsPerParticle * GsapParticles.Length(props.particleCount)
    requires IsRandomSource(draws)
    ensures forall p :: p in GsapParticles.InitParticles(ParticleProps(props), draws) ==>
      1.0 <= p.size < 4.0 && 7.5 <= p.speed < 22.5
  {
    var pp := ParticleProps(props);
    GsapParticles.InitParticlesInRanges(pp, draws);
    forall p | p in GsapParticles.InitParticles(pp, draws)
      ensures 1.0 <= p.size < 4.0 && 7.5 <= p.speed < 22.5
    {
      assert GsapParticles.InRanges(p, pp);
      assert GsapParticles.SizeInRange(p.size, pp);
      assert GsapParticles.SpeedInRange(p.speed, pp);
    }
  }
}
