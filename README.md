# AdmyBrand marketing site — a Dafny model of its behavioural core

This project models the parts of the AdmyBrand marketing site (a Next.js
application) that decide things. Each component and helper keeps the shape
it has in the TypeScript:

- **Contact form.** `validateForm`, `handleChange` and `handleSubmit` are
  methods of a class with the component's state fields. The per-field rules
  are pure functions. The `fetch` reply is a parameter.
- **Contact endpoint.** `POST /api/contact` is a method that returns the
  response and the messages handed to the mail service. Each send's result
  is a parameter. Lemmas relate the endpoint's guards to the form's
  validation.
- **Testimonial carousel and FAQ accordion.** Each is a class whose handlers
  reassign its fields. Each handler is proved equal to a pure transition
  function, and the lemmas are stated about those functions.
- **Random generators.** These are the parallax particle and gradient
  helpers, the GSAP particle initialisation, and `generateId`. Every
  `Math.random()` call is one entry of a sequence of draws in [0, 1),
  consumed in the code's order.
- **Numeric helpers.** `clamp`, `calculateScrollProgress` and `mapRange`
  are over `real`. JavaScript's infinities and NaN are written out where a
  division by zero reaches them.
- **Attribute scrubber of the client layout.** It is a descending loop over
  a live attribute list that removes attributes by name. It is proved to
  leave exactly the filtered list.
- **Theme script and system-theme listener.** They act on the class list of
  `<html>`, which is modelled as an ordered list with `add` and `remove`.
  For the script, the model gives the effect of its text when it runs. The
  script element is rendered only once the provider has mounted. The
  listener acts only when the theme it captured is `system`. The provider
  reads that theme with `useTheme()` from outside any theme context, so it
  is `undefined`. See "Findings".
- **Navigation bar.** It has three parts: the theme button, the `scrolled`
  flag, and the mobile menu's `isOpen`.
- **Footer.** Each link is classified as a new-tab anchor or an internal
  link.
- **Two page backgrounds.** The model covers their colours, the animations
  they start, their reduced-motion gating, the layers they render and
  their orb parameters.

The model follows the code. Some behaviours of the code are worth
knowing:

- **The carousel's mouse handlers.** They make a plain hover (enter, move,
  leave) change the slide. See "Findings".
- **The GSAP particle layer.** Its animation setup runs at mount, before
  the particles are generated, and never again. See "Findings".
- **The parallax background's orbs.** One orb is drawn per particle. With
  particles disabled there are no orbs. With the default thirty particles
  the dark theme's opacity keyframes go past 1 from the ninth orb on.

## Model

| member | source | states |
|---|---|---|
| Text.TrimEmptyIff | src/components/ContactForm.tsx:37 | `trim()` gives the empty string exactly for an all-white-space string, and never a longer one |
| ContactForm.EmailCheckIsPattern | src/components/ContactForm.tsx:43 | the index-based e-mail check accepts exactly the strings matching `^[^\s@]+@[^\s@]+\.[^\s@]+$` |
| ContactForm.BlankFieldRule | src/components/ContactForm.tsx:37-49 | "Name is required" / "Subject is required" is set iff the trimmed field is empty |
| ContactForm.EmailRule | src/components/ContactForm.tsx:41-45 | empty e-mail gives "Email is required", a non-matching one "Please enter a valid email address", a matching one no error |
| ContactForm.MessageRule | src/components/ContactForm.tsx:51-55 | a blank message is required; a trimmed message of 1 to 9 UTF-16 code units is too short; 10 or more passes |
| Text.Utf16Length | src/components/ContactForm.tsx:53 | `.length` counts UTF-16 code units: at least one per code point and at most two |
| ContactForm.AstralMessageLongEnough | src/components/ContactForm.tsx:53 | five emoji beyond U+FFFF are five code points but ten code units, so the message passes |
| ContactForm.ValidateEmptyIffAccepted | src/components/ContactForm.tsx:34-59 | the error record is empty iff every field passes its rule |
| ContactForm.FormData.With | src/components/ContactForm.tsx:62-65 | the edited field takes the new value and every other field keeps its own |
| ContactForm.FormErrors.Clear | src/components/ContactForm.tsx:69-74 | the field's error becomes absent and every other error is kept |
| ContactForm.BlankNameShortMessage | src/components/ContactForm.tsx:34-59 | a concrete form with an empty name and a five-letter message gets exactly those two errors |
| ContactForm.SubmitFailure | src/components/ContactForm.tsx:98-133 | no failure iff the reply is ok; otherwise `data.error`, else `data.details`, else "Failed to submit form" (never empty for a reply); a thrown `Error` gives its own message, even an empty one; anything else thrown gives the generic text |
| ContactForm.ContactFormComponent.ValidateForm | src/components/ContactForm.tsx:34-59 | replaces the whole error record with the validation result and returns true iff it is empty |
| ContactForm.ContactFormComponent.HandleChange | src/components/ContactForm.tsx:61-75 | sets only the edited field and clears only that field's error |
| ContactForm.ContactFormComponent.HandleSubmit | src/components/ContactForm.tsx:77-147 | a request is made iff validation passes; on success the form is reset and marked submitted, on failure the message is kept and the data stays; submitting is always false afterwards |
| ContactRoute.Rejection | src/app/api/contact/route.ts:26-42 | the 400 message: "All fields are required" when any field is falsy; otherwise "Please enter a valid email address" when the pattern fails; otherwise none |
| ContactRoute.AdminEmail | src/app/api/contact/route.ts:46-61 | addressed from the site address to `ADMIN_EMAIL` or the default, with subject "New Contact Form: " followed by the subject given |
| ContactRoute.UserEmail | src/app/api/contact/route.ts:65-80 | addressed to the visitor's address with the thank-you subject |
| ContactRoute.ServerError | src/app/api/contact/route.ts:93-101 | status 500 with the generic message; `details` carries the error message only in development |
| ContactRoute.Post | src/app/api/contact/route.ts:15-103 | the configuration check comes first; then the 400 guards, with nothing handed to the mail service; then the owner's mail and the visitor's mail. The answer is 200 iff both send calls returned without throwing. A send that throws ends in 500, and nothing is handed over after it |
| ContactRoute.ClientAcceptedPassesServer | src/app/api/contact/route.ts:26-42 | every form the client accepts passes the server's guards |
| ContactRoute.ServerLooserThanClient | src/app/api/contact/route.ts:26-42 | among forms the server accepts, the client rejects exactly those with an all-white-space name or subject or a trimmed message under ten UTF-16 code units |
| ContactRoute.WhitespaceFieldsReachServer | src/app/api/contact/route.ts:26-42 | a concrete blank-name, blank-subject, two-letter-message form passes the server while the client reports three errors |
| Carousel.Next | src/components/TestimonialsCarousel.tsx:58-63 | the index after `nextSlide` is (i + 1) mod 5 and stays in range |
| Carousel.Prev | src/components/TestimonialsCarousel.tsx:65-70 | the index after `prevSlide` is (i - 1) mod 5 and stays in range |
| Carousel.Forward | src/components/TestimonialsCarousel.tsx:58-63 | the index advances by one modulo 5, the direction becomes 1, the drag refs are untouched |
| Carousel.Backward | src/components/TestimonialsCarousel.tsx:65-70 | the index goes back by one modulo 5, the direction becomes -1, the drag refs are untouched |
| Carousel.PrevUndoesNext | src/components/TestimonialsCarousel.tsx:58-70 | previous undoes next and next undoes previous |
| Carousel.AdvanceIsModular | src/components/TestimonialsCarousel.tsx:96-103 | k autoplay ticks land on (i + k) mod 5 |
| Carousel.DragEnd | src/components/TestimonialsCarousel.tsx:84-94 | a drag of more than 50 to the right goes back, more than 50 to the left goes forward, anything else stays; the drag refs are reset |
| Carousel.DragMove | src/components/TestimonialsCarousel.tsx:78-82 | the distance becomes the cursor position minus the start, whatever the start |
| Carousel.DragStart | src/components/TestimonialsCarousel.tsx:72-76 | the start becomes the cursor position and the distance 0; the slide is unchanged |
| Carousel.GoTo | src/components/TestimonialsCarousel.tsx:217-219 | the dot's index becomes current; direction is forward iff the dot is after the current slide |
| Carousel.TestimonialsCarousel.NextSlide | src/components/TestimonialsCarousel.tsx:58-63 | the component's state becomes `Forward` of the old state |
| Carousel.TestimonialsCarousel.PrevSlide | src/components/TestimonialsCarousel.tsx:65-70 | the component's state becomes `Backward` of the old state |
| Carousel.TestimonialsCarousel.HandleDragStart | src/components/TestimonialsCarousel.tsx:72-76 | records the start position and zeroes the distance |
| Carousel.TestimonialsCarousel.HandleDragMove | src/components/TestimonialsCarousel.tsx:78-82 | the state becomes `DragMove` of the old state |
| Carousel.TestimonialsCarousel.HandleDragEnd | src/components/TestimonialsCarousel.tsx:84-94 | the state becomes `DragEnd` of the old state |
| Carousel.TestimonialsCarousel.HandleDotClick | src/components/TestimonialsCarousel.tsx:217-219 | the state becomes `GoTo` of the old state |
| Carousel.HoverThenLeaveGoesBack | src/components/TestimonialsCarousel.tsx:141-147 | as written, a mouse move more than 50 right of the last reset point followed by leaving the card moves one slide back |
| Carousel.PressedDragMove | src/components/TestimonialsCarousel.tsx:78-82 | with a press the distance is measured from it; without one the gesture is unchanged |
| Carousel.PressedDragEnd | src/components/TestimonialsCarousel.tsx:84-94 | releasing applies the original 50-pixel rule to the measured distance and returns to idle |
| Carousel.IdleStaysIdle | src/components/TestimonialsCarousel.tsx:78-82 | moves without a press leave the gesture idle |
| Carousel.PressedDragOnly | src/components/TestimonialsCarousel.tsx:141-147 | with moves counted only while pressed, moving without a press never changes the slide |
| Carousel.PressedDragAgrees | src/components/TestimonialsCarousel.tsx:84-94 | with a press, the corrected gesture changes the slide exactly as the original drag rule |
| Carousel.SlidesMoveTogether | src/components/TestimonialsCarousel.tsx:105-118 | the entering and the leaving slide come from opposite sides, 1000 away |
| Carousel.Stars | src/components/TestimonialsCarousel.tsx:165-169 | five stars, star i filled iff i is below the rating |
| Carousel.StarsShowRating | src/components/TestimonialsCarousel.tsx:165-169 | the number of filled stars equals the rating, for ratings from 0 to 5 |
| Carousel.EveryTestimonialStars | src/components/TestimonialsCarousel.tsx:7-48 | every testimonial shows as many filled stars as its rating |
| Faq.Toggle | src/components/FAQSection.tsx:37-39 | the open index becomes none iff the pressed question was open, otherwise the pressed one |
| Faq.ToggleTwice | src/components/FAQSection.tsx:37-39 | pressing the same question twice returns to all-closed or to that question open |
| Faq.Item | src/components/FAQSection.tsx:75-91 | panel, `aria-expanded` and minus icon all show iff the item is the open one |
| Faq.AtMostOneShown | src/components/FAQSection.tsx:35-91 | at most one answer shows, and exactly one while the open index is a question |
| Faq.FaqSection.constructor | src/components/FAQSection.tsx:35 | the first question starts open |
| Faq.FaqSection.ToggleFaq | src/components/FAQSection.tsx:37-39 | the open index becomes `Toggle` of the old one |
| Faq.PressesKeepOneOpen | src/components/FAQSection.tsx:35-39 | after any presses on the questions the open index is none or a question |
| Faq.PressesStayInRange | src/components/FAQSection.tsx:37-39 | presses on questions keep the open index none or a question index |
| ParallaxUtils.ParticleCount | src/components/ParallaxBackground/utils.ts:9 | the count is capped at 50 and is zero for non-positive requests |
| ParallaxUtils.GenerateParticles | src/components/ParallaxBackground/utils.ts:8-17 | the number of particles is the capped count, ids are the indices, and every field lies in its range |
| ParallaxUtils.ParticleDraws | src/components/ParallaxBackground/utils.ts:10-16 | particle i is built from draws 5i to 5i + 4, in the code's order |
| ParallaxUtils.GenerateGradient | src/components/ParallaxBackground/utils.ts:24-35 | given colours are used as they are; otherwise one of the four default pairs |
| ParallaxUtils.DefaultPick | src/components/ParallaxBackground/utils.ts:32 | `Math.floor(Math.random() * 4)` is an index of the default pairs, the floor of the scaled draw |
| ParallaxUtils.GradientKeepsColours | src/components/ParallaxBackground/utils.ts:34 | the two colours can be read back out of the CSS text |
| ParallaxUtils.ScrollProgress | src/components/ParallaxBackground/utils.ts:44-50 | with a non-empty range the progress is finite and in [0, 1]: 0 before the start, 1 after the end, linear between |
| ParallaxUtils.ScrollProgressEmptyRange | src/components/ParallaxBackground/utils.ts:44-50 | an empty range gives 1 past the point, 0 before it, NaN at it |
| ParallaxUtils.ScrollProgressMonotone | src/components/ParallaxBackground/utils.ts:44-50 | progress does not decrease as the page scrolls further |
| ParallaxUtils.Clamp | src/components/ParallaxBackground/utils.ts:55-57 | the result is within the bounds and equals the value when it already is; with crossed bounds it is the maximum |
| ParallaxUtils.ClampIdempotent | src/components/ParallaxBackground/utils.ts:55-57 | clamping twice is clamping once |
| ParallaxUtils.MapRange | src/components/ParallaxBackground/utils.ts:62-70 | a non-empty input range gives a finite result |
| ParallaxUtils.MapRangeEndpoints | src/components/ParallaxBackground/utils.ts:62-70 | the input range's ends map to the output range's ends |
| ParallaxUtils.MapRangeInverse | src/components/ParallaxBackground/utils.ts:62-70 | mapping there and back returns the value when neither range is empty |
| ParallaxUtils.MapRangeExtrapolates | src/components/ParallaxBackground/utils.ts:62-70 | values outside the input range are not clamped |
| GsapParticles.InitParticles | src/components/ParallaxBackground/GSAPParticles.tsx:46-56 | one particle per requested count, ids are the indices |
| GsapParticles.InitParticlesInRanges | src/components/ParallaxBackground/GSAPParticles.tsx:47-55 | every field of every particle lies in the range its draw gives |
| GsapParticles.ParticleLayer.InitEffect | src/components/ParallaxBackground/GSAPParticles.tsx:43-57 | outside a browser nothing changes; otherwise the ref holds freshly generated particles |
| GsapParticles.Animated | src/components/ParallaxBackground/GSAPParticles.tsx:61-66 | only particles with a mounted element get a timeline, each at most once, in order; none without a container |
| GsapParticles.AnimatedComplete | src/components/ParallaxBackground/GSAPParticles.tsx:64-66 | every particle with a mounted element gets a timeline |
| GsapParticles.NothingToAnimate | src/components/ParallaxBackground/GSAPParticles.tsx:61 | no container or no particles means no timelines |
| GsapParticles.Rendered | src/components/ParallaxBackground/GSAPParticles.tsx:110 | one particle element per particle of the ref at render time |
| GsapParticles.ParticleLayer.AnimationSetup | src/components/ParallaxBackground/GSAPParticles.tsx:59-102 | the timelines created are those of `Animated` over the ref as it is when the callback runs |
| GsapParticles.ParticleLayer.Mount | src/components/ParallaxBackground/GSAPParticles.tsx:40-102 | the animation setup runs over the empty ref of the first render and then the ref is filled: particles exist, timelines do not |
| GsapParticles.MountAnimatesNothing | src/components/ParallaxBackground/GSAPParticles.tsx:43-66 | as written, a positive count gives that many particles and no timeline at all |
| GsapParticles.EveryParticleAnimatedAfterInit | src/components/ParallaxBackground/GSAPParticles.tsx:61-99 | run over the filled and rendered ref, the setup gives each particle exactly one timeline, in index order |
| Ids.CharAt | src/lib/utils.ts:51 | `charAt` gives the character at an index in range and the empty string otherwise |
| Ids.GenerateId | src/lib/utils.ts:48-54 | the identifier spells out one character of the alphabet per draw, for `length` draws |
| Ids.GeneratedLength | src/lib/utils.ts:48-54 | the identifier has exactly `length` characters, and is empty for a non-positive length |
| Ids.Spell | src/lib/utils.ts:50-52 | every character of the identifier is from the alphabet, one per draw at most |
| ClientLayout.KeptMembers | src/components/ClientLayout.tsx:94-99 | an attribute survives iff it was there and is not an extension attribute |
| ClientLayout.Element.RemoveAttribute | src/components/ClientLayout.tsx:99 | removes the attribute with that name |
| ClientLayout.RemoveExtensionAttributes | src/components/ClientLayout.tsx:90-102 | the descending loop leaves exactly the non-extension attributes in their order, names still distinct |
| ClientLayout.NoExtensionAttributeLeft | src/components/ClientLayout.tsx:94-98 | no extension attribute is left |
| ClientLayout.NonDataAttributesKept | src/components/ClientLayout.tsx:94 | attributes not starting with `data-` always survive |
| ClientLayout.KeptAppend | src/components/ClientLayout.tsx:92-101 | scrubbing keeps the survivors' relative order |
| ClientLayout.KeptIdempotent | src/components/ClientLayout.tsx:90-102 | a second scrub removes nothing |
| ClientLayout.ScrubExample | src/components/ClientLayout.tsx:94-98 | a Grammarly marker goes while `class` and `aria-gramm` stay |
| ClientLayout.LayoutEffect.Mount | src/components/ClientLayout.tsx:80-85 | outside a browser nothing changes; otherwise the font class is added and the timer starts |
| ClientLayout.LayoutEffect.TimerFires | src/components/ClientLayout.tsx:104-106 | `<body>` and `<html>` are both scrubbed |
| ClientLayout.LayoutEffect.Cleanup | src/components/ClientLayout.tsx:131-134 | the timer is cancelled and the font class removed |
| ClientLayout.MountThenCleanupRestores | src/components/ClientLayout.tsx:85-133 | mounting then cleaning up restores a class list that lacked the font class |
| TokenList.AddThenRemove | src/components/ClientLayout.tsx:85-133 | `add` then `remove` of an absent class restores the list exactly |
| TokenList.Add | src/components/ClientLayout.tsx:85 | `classList.add` makes the class present, leaves the other classes as they were, and does nothing when the class is there |
| TokenList.Remove | src/components/ClientLayout.tsx:133 | `classList.remove` makes the class absent and leaves the other classes as they were |
| ThemeProvider.StoredTheme | src/components/theme-provider.tsx:72 | a missing or empty stored theme counts as `system` |
| ThemeProvider.ResolvedTheme | src/components/theme-provider.tsx:73-74 | the system scheme when the stored theme is `system`, else the stored theme |
| ThemeProvider.ScriptSetsDark | src/components/theme-provider.tsx:70-82 | after the script `dark` is present iff the resolved theme is `dark`, no other class changes, and an exception changes nothing |
| ThemeProvider.NothingStoredFollowsSystem | src/components/theme-provider.tsx:72-80 | with nothing stored the `dark` class follows the system |
| ThemeProvider.UnknownThemeIsLight | src/components/theme-provider.tsx:74-80 | an unknown stored value removes `dark` |
| ThemeProvider.SystemChangeOneScheme | src/components/theme-provider.tsx:25-31 | no-op unless the theme is `system`; otherwise exactly one of `light`/`dark` remains, `dark` iff the system prefers dark, others untouched |
| ThemeProvider.SystemChangeLastWins | src/components/theme-provider.tsx:25-31 | after two changes the last one decides |
| ThemeProvider.HandlerNeverActs | src/components/theme-provider.tsx:14-39 | as written, the captured theme is `undefined`, so no run of system-scheme changes alters the class list |
| ThemeProvider.SystemThemeFollowsLastEvent | src/components/theme-provider.tsx:25-31 | with the theme `system`, after any non-empty run of changes exactly one of `light`/`dark` is left, chosen by the last event, and other classes stay |
| ThemeProvider.DocumentRoot.RunThemeScript | src/components/theme-provider.tsx:68-86 | the class list becomes the script's result |
| ThemeProvider.DocumentRoot.HandleSystemThemeChange | src/components/theme-provider.tsx:25-31 | the class list becomes the handler's result |
| ThemeProvider.HiddenUntilMounted | src/components/theme-provider.tsx:42-64 | children are always rendered, visible only once mounted, and themed exactly when visible |
| Navbar.ToggledTheme | src/components/ui/Navbar.tsx:21-23 | `light` iff the theme was `dark`, `dark` for anything else |
| Navbar.ToggleThemeTwice | src/components/ui/Navbar.tsx:21-23 | two presses return to `light`/`dark`, and `system` is never reached again |
| Navbar.ThemeButtonStates | src/components/ui/Navbar.tsx:25-49 | before mount the button has no handler and shows the sun; after mount the sun shows iff the theme is dark |
| Navbar.IsScrolled | src/components/ui/Navbar.tsx:96 | scrolled iff scrollY exceeds 10 |
| Navbar.Prevented | src/components/ui/Navbar.tsx:237-241 | navigation is prevented iff a top-level item with sub-items is clicked |
| Navbar.MenuTransitions | src/components/ui/Navbar.tsx:89-91 | the menu button flips `isOpen`; route change, sub-item, Sign in and Get started close it; a top-level click leaves it |
| Navbar.MenuAfterParity | src/components/ui/Navbar.tsx:84-287 | after any run of events the menu is open iff the button presses since the last closing event are odd (counting the start state when there is none) |
| Navbar.NavbarState.PressThemeButton | src/components/ui/Navbar.tsx:21-39 | ignored before mount, otherwise toggles the theme |
| Navbar.NavbarState.MountThemeButton | src/components/ui/Navbar.tsx:17-19 | the button becomes mounted and nothing else changes |
| Navbar.NavbarState.HandleScroll | src/components/ui/Navbar.tsx:95-100 | `scrolled` becomes scrollY > 10 and is written only when it changes |
| Navbar.NavbarState.HandleMenuEvent | src/components/ui/Navbar.tsx:194-287 | `isOpen` becomes `MenuStep` of the old value, and prevention is reported |
| Navbar.OneSideWritesOnce | src/components/ui/Navbar.tsx:95-100 | scrolling on one side of the threshold writes the flag at most once |
| Footer.AriaLabel | src/components/ui/Footer.tsx:308 | the `ariaLabel` when non-empty, else the name |
| Footer.RenderLinkKinds | src/components/ui/Footer.tsx:302-327 | new-tab anchor iff flagged external or the href starts with `http`, `mailto:` or `tel:`; same href and label rules for both kinds; `ml-2` iff there is an icon |
| Footer.FlagWins | src/components/ui/Footer.tsx:302 | the external flag alone makes a new-tab anchor |
| Footer.RelativeHasNoScheme | src/components/ui/Footer.tsx:302 | a site-relative href has none of the external schemes |
| Footer.ResourcesClassified | src/components/ui/Footer.tsx:130-162 | `/docs` opens in a new tab by its flag; `/guides` and `/help` stay internal |
| Footer.ContactClassified | src/components/ui/Footer.tsx:163-186 | `mailto:` and `tel:` open in a new tab without the flag; all contact links carry the spaced label |
| GsapBackground.ThemeColor | src/components/ParallaxBackground/GSAPBackground.tsx:44-45 | the `.dark` colour iff the theme is `dark`, the `.light` one otherwise |
| GsapBackground.OrbPresets | src/components/ParallaxBackground/GSAPBackground.tsx:67-81 | orb 0 tweens to scale 1.1 and opacity 0.3 over 7.5 s, orb 1 to 1.0 and 0.2 over 10 s; delay 2i, forever, yoyo |
| GsapBackground.Tweens | src/components/ParallaxBackground/GSAPBackground.tsx:66-82 | one tween per orb, orb k with its preset |
| GsapBackground.StartAnimations | src/components/ParallaxBackground/GSAPBackground.tsx:48-86 | nothing under reduced motion; the gradient fades in when mounted; orbs get their preset tweens only when enabled and present |
| GsapBackground.ReducedMotionStatic | src/components/ParallaxBackground/GSAPBackground.tsx:96-111 | the static container renders iff motion is reduced |
| GsapBackground.LayerEnds | src/components/ParallaxBackground/GSAPBackground.tsx:113-207 | the gradient in the theme colours comes first and the content last |
| GsapBackground.GridAndOrbLayers | src/components/ParallaxBackground/GSAPBackground.tsx:137-175 | the grid is there iff enabled, in the theme's colour; two orbs are there iff enabled |
| GsapBackground.ParticleAndScanLayers | src/components/ParallaxBackground/GSAPBackground.tsx:178-203 | the particle layer is there iff enabled, with count, sizes 1 to 4 and speed 15; the scan line iff enabled, with opacity 0.5 dark and 0.2 otherwise |
| GsapBackground.ThemeColours | src/components/ParallaxBackground/GSAPBackground.tsx:44-45 | `dark` picks the dark colours; `system` and an unset theme pick the light ones |
| GsapBackground.RenderedOrbsAnimated | src/components/ParallaxBackground/GSAPBackground.tsx:152-175 | the two rendered orbs get exactly the two preset tweens |
| GsapBackground.ParticleLayerRanges | src/components/ParallaxBackground/GSAPBackground.tsx:178-186 | the particles generated for the layer are 1 to 4 across, with speeds from 7.5 to 22.5 |
| ParallaxBackground.EffectiveReducedMotion | src/components/ParallaxBackground/ParallaxBackground.tsx:64 | the prop when given, `false` included; else the user preference |
| ParallaxBackground.PropOverridesPreference | src/components/ParallaxBackground/ParallaxBackground.tsx:64 | an explicit prop decides whatever the preference; `reducedMotion={false}` changes the outcome exactly for users who asked for reduced motion |
| ParallaxBackground.ParticlesGated | src/components/ParallaxBackground/ParallaxBackground.tsx:68-71 | no particles when disabled, otherwise the capped count |
| ParallaxBackground.ScrollFactor | src/components/ParallaxBackground/ParallaxBackground.tsx:83 | the factor never exceeds 0.5, is 0.5 from 500 on, and scrollY / 1000 below |
| ParallaxBackground.ScrollFactorMonotone | src/components/ParallaxBackground/ParallaxBackground.tsx:83 | the factor does not decrease as the page scrolls down |
| ParallaxBackground.ScrollEffect.SetReducedMotion | src/components/ParallaxBackground/ParallaxBackground.tsx:91-96 | a listener is registered exactly when motion is not reduced |
| ParallaxBackground.ScrollEffect.HandleScroll | src/components/ParallaxBackground/ParallaxBackground.tsx:79-88 | no-op under reduced motion or without a container; otherwise writes the scroll factor |
| ParallaxBackground.ScrollEffect.WindowScroll | src/components/ParallaxBackground/ParallaxBackground.tsx:79-96 | under reduced motion a scroll writes nothing; otherwise the factor is written |
| ParallaxBackground.ScrollEffect.Unmount | src/components/ParallaxBackground/ParallaxBackground.tsx:91-96 | the listener is removed and the container gone; the last factor stays |
| ParallaxBackground.OrbParameters | src/components/ParallaxBackground/ParallaxBackground.tsx:203-213 | orb i peaks at scale 1.1 + 0.1i and opacity 0.3 + 0.1i dark or 0.2 + 0.05i otherwise, cycles in 15 + 5i s after 2i s |
| ParallaxBackground.OrbsGrow | src/components/ParallaxBackground/ParallaxBackground.tsx:203-213 | later orbs peak higher and run slower |
| ParallaxBackground.Orbs | src/components/ParallaxBackground/ParallaxBackground.tsx:190-219 | one orb per requested index, orb k with the parameters of index k |
| ParallaxBackground.RenderBranches | src/components/ParallaxBackground/ParallaxBackground.tsx:104-175 | reduced motion gives the static container; otherwise not mounted gives the empty one; otherwise the full render |
| ParallaxBackground.FullRenderLayers | src/components/ParallaxBackground/ParallaxBackground.tsx:190-315 | one orb per particle when orbs are on; grid and scan line follow their flags with theme colour and opacity |
| ParallaxBackground.DefaultDarkOrbsPastFullOpacity | src/components/ParallaxBackground/ParallaxBackground.tsx:205-207 | with default props in the dark theme there are 30 orbs and those from index 8 peak above opacity 1 |

## Left out

- Sending e-mail and the `fetch` call are outside the model. Each is a parameter that gives its result. A send either returned or threw with a message. A fetch either replied with a status and body, or threw.
- Analytics (`window.gtag`) and console logging are left out. They do not affect state.
- The five-second reset of the success message is not modelled, since timers are outside the model. The same goes for the carousel's autoplay interval, whose single tick is `nextSlide` (`Carousel.AdvanceIsModular`).
- The mutation observer of the client layout is not modelled. Its disconnect function is never kept.
- GSAP timelines, Framer-Motion springs, easing and `useScroll` are not modelled. Only the targets and parameters handed to them are.
- Pixel offsets, stagger delays and IEEE rounding are not modelled. Numbers are reals.
- The gradient of the parallax background is not modelled. Its call passes the theme string where the colour pair is expected, and it then reads `start`/`end` fields that the helper's string does not have.
- The particle fields the parallax component reads but `generateParticles` never sets (`color`, `opacity`, `blur`, `translateX`, `translateY`) are not modelled. Neither is the per-render random duration of each particle's animation.
- The colour passed to the GSAP particle layer and the class names are not modelled.
- Registering and removing the theme provider's media-query listener is not modelled. Only the handler's effect is.
- The desktop dropdowns of the navigation bar and the header's style classes are not modelled. They are CSS hover states and static class strings.
- `Text.IsWhitespace` lists the ECMAScript white-space and line-terminator code points explicitly. It does not consult Unicode's space-separator category at run time.
- `ContactForm.ContactFormComponent.HandleSubmit` models the awaited request as one step. Interleavings with other handlers while the request is pending are not modelled.
- ContactRoute.Post: JSON field values that are not strings are not modelled. `Payload` holds optional strings only. So a falsy number or `false`, which the guard at route.ts:26 rejects, is not covered. Nor is an array that passes the e-mail pattern by string coercion and becomes the `to` address.
- ContactRoute.AdminEmail: the `html` bodies of both messages are not modelled. They interpolate the name, e-mail, subject and message without escaping. Only the sender, recipient and subject are modelled.
- ContactRoute.Post: the values the two send calls return are not modelled, because the handler never reads them. A call that returns without throwing counts as sent.
- ThemeProvider.DocumentRoot.RunThemeScript: whether the browser executes the script element is not modelled. The element is inserted on the client after mount through `dangerouslySetInnerHTML`. The model states what the script's text does when it runs.

## Findings

| source | as written | input that shows it | evidently intended | confidence | as-written member | corrected member |
|---|---|---|---|---|---|---|
| src/components/TestimonialsCarousel.tsx:141-147 | `onMouseMove` updates the drag distance whether or not a button is pressed, because the `dragStartX.current === null` guard never fires on a numeric ref; `onMouseLeave` then ends the "drag" | from the first slide, move the mouse over the card at clientX 300 without pressing, then leave: the carousel goes back to slide 4 | only a pressed drag changes the slide | not executed | Carousel.HoverThenLeaveGoesBack | Carousel.PressedDragOnly |
| src/components/theme-provider.tsx:14-31 | the provider calls `useTheme()` although it renders the theme context rather than sitting below one, so the listener captures `theme === undefined` and its `theme === 'system'` test never holds | with the theme `system`, switch the operating system to dark while the page is open: this handler leaves the class list as it was; any change comes from the theme library's own listener | the listener acts while the theme is `system`, as its test says | not executed | ThemeProvider.HandlerNeverActs | ThemeProvider.SystemThemeFollowsLastEvent |
| src/components/ParallaxBackground/GSAPParticles.tsx:43-102 | the `useGSAP` callback has no dependencies and runs once, as a layout effect, before the `useEffect` fills `particles.current`; the ref write does not render again, so the callback sees an empty list and returns at line 61 | mount with the default count of 30: thirty particles are generated and none gets `gsap.set` or a timeline | every generated particle is positioned and animated | not executed | GsapParticles.MountAnimatesNothing | GsapParticles.EveryParticleAnimatedAfterInit |
