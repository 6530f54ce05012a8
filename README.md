# Parallax portfolio core, modelled in Dafny

This project models the computational core of an animated single-page portfolio. The page is a scroll-driven parallax scene with seasonal themes. The model covers:

- the scroll and pointer engine (`useParallaxScroll`, `useMouseParallax`);
- the sine-hash pseudo-random generator;
- the procedural conifer outline (`generateTree`);
- the star, particle and dense-forest layouts built on that generator;
- the moon's illumination arithmetic;
- the four season theme tables;
- the error boundary's state machine.

There is one module per source file:

| file | module | source |
|---|---|---|
| `wrappers.dfy` | `Wrappers` | the shared `Option` (JavaScript `null`/`undefined`) |
| `seeded_random.dfy` | `SeededRandom` | lib/seededRandom.ts |
| `parallax_scroll.dfy` | `ParallaxScroll` | components/hero/hooks/useParallaxScroll.ts |
| `generate_tree.dfy` | `GenerateTree` | components/hero/utils/generateTree.ts |
| `stars_static.dfy` | `StarsStatic` | components/hero/components/StarsStatic.tsx |
| `atmospheric_particles.dfy` | `AtmosphericParticles` | components/hero/components/AtmosphericParticles.tsx |
| `svg_layers.dfy` | `SvgLayers` | components/hero/components/SVGLayers.tsx |
| `season_themes.dfy` | `SeasonThemes` | components/hero/config/seasonThemes.ts |
| `error_boundary.dfy` | `ErrorBoundaryModel` | components/ErrorBoundary.tsx |

Modelling choices:

- **Arithmetic.** All arithmetic is over Dafny `real`, an exact idealisation of JavaScript doubles.
- **`Math.sin`.** It is a parameter `sin: real -> real` that is assumed to be nothing in particular. Every range fact about seeded values therefore follows from the fractional part alone, and holds for any sine.
- **Tree generator.** `generateTree` is proved against its generator `r` as a parameter, with the premise that every value of `r` lies in [0, 1). `TreeRandom` builds the real generator and proves that premise.
- **Nav thresholds.** `Infinity` is the `Infinite` threshold. The test `scrollY < h * Infinity` holds exactly when `h > 0`, because `0 * Infinity` is `NaN`.
- **Hooks.** The two hooks are classes.
  - Their fields are the refs (`isScrollingRef`, `rafIdRef`, `lastScrollYRef`, `lastMouseRef`), the state values, and the last values written to the CSS custom properties: the scroll hook's batch `--scroll-y`, `--window-height` and `--l0-scroll` ... `--l5-scroll`, and the mouse hook's `--mouse-x` and `--mouse-y`.
  - The scroll hook records whether its scroll listener is attached; a scroll event reaches `handleScroll` only while it is.
  - Animation frames are explicit method calls, carrying the identifiers `requestAnimationFrame` would return.
  - A frame that reads a missing container or root receives `None`.
- **Error boundary.**
  - React nodes carry JavaScript truthiness, so a falsy `fallback` (`0`, `""`, `false`, `null`, `undefined`) falls through to the built-in panel.
  - The retry button's `setState` replaces both state fields.

Callers pass non-integral seeds (`i * 3.7`, `seed + n`), so the model takes real seeds.

## Model

| member | source | states |
|---|---|---|
| SeededRandom.Frac | lib/seededRandom.ts:15 | `x - floor(x)` lies in [0, 1) and differs from `x` by an integer |
| SeededRandom.Random | lib/seededRandom.ts:13-16 | `seededRandom(seed)` lies in [0, 1) whatever the sine returns |
| SeededRandom.RandomDeterministic | lib/seededRandom.ts:13-16 | seeds whose sine samples agree (in particular equal seeds) give equal values |
| SeededRandom.CreateSeededRandom | lib/seededRandom.ts:25-27 | the generator maps every offset `o` to `seededRandom(b + o)` and stays in [0, 1) |
| SeededRandom.CreateSeededRandomAtZero | lib/seededRandom.ts:25-27 | offset 0 reproduces `seededRandom(b)` |
| GenerateTree.TreeRandom | components/hero/utils/generateTree.ts:7 | the tree's `r(n)` is `seededRandom(seed + n)` and lies in [0, 1) |
| GenerateTree.Layers | components/hero/utils/generateTree.ts:11 | `4 + floor(r(1) * 2)` is 4 or 5 when `r(1)` lies in [0, 1) |
| GenerateTree.Generate | components/hero/utils/generateTree.ts:11-34 | the two loops build exactly `Outline`: apex, each layer's tip and notch top to bottom, trunk foot, each layer's notch and tip bottom to top |
| GenerateTree.RightSideLength | components/hero/utils/generateTree.ts:14-22 | the ascending loop emits two vertices per layer |
| GenerateTree.LeftSideLength | components/hero/utils/generateTree.ts:26-34 | the descending loop emits two vertices per layer |
| GenerateTree.OutlineShape | components/hero/utils/generateTree.ts:12-34 | the outline has `4 * layers + 2` vertices, starts at the apex `(x + w/2, baseY - h)` and has the trunk foot `(x + w/2, baseY)` between the two loops' output |
| GenerateTree.ReflectRight | components/hero/utils/generateTree.ts:20-33 | reflecting a right-hand tip or notch about `x + w/2` gives the left-hand point the descending loop computes for the same layer |
| GenerateTree.SidesMirror | components/hero/utils/generateTree.ts:14-34 | vertex `k` of the left side is the reflection of vertex `2n - 1 - k` of the right side |
| GenerateTree.MirrorSymmetry | components/hero/utils/generateTree.ts:14-34 | outline vertex `2L + 2 + k` is the mirror image of vertex `2L - k`: the second half is the first half reversed and reflected |
| GenerateTree.ProgressRange | components/hero/utils/generateTree.ts:15 | `progress = (i + 1) / layers` lies in (0, 1] |
| GenerateTree.YPosOrdered | components/hero/utils/generateTree.ts:15-17 | for `h > 0` the layer line `yPos` strictly increases with the layer index |
| GenerateTree.YPosRange | components/hero/utils/generateTree.ts:15-17 | for `h > 0` every `yPos` lies in `(baseY - h, baseY - 0.15h]` |
| GenerateTree.NotchInsideTip | components/hero/utils/generateTree.ts:16-21 | for `w > 0` the layer width is positive, the inset lies in `[0.15, 0.25)` of it, each notch lies strictly inside its tip on both sides, and below it when `h > 0` |
| ParallaxScroll.LayerOffsetsAt | components/hero/hooks/useParallaxScroll.ts:53-58 | `l0` never exceeds `scrollY` or `3.5h`; `l1 = l2 = l3` never exceed `scrollY` or `1.5h`; for `h >= 0`, `l4` and `l5` lie in `[0, 1.5h]` |
| ParallaxScroll.BackLayersFollowThenStop | components/hero/hooks/useParallaxScroll.ts:53-56 | `l0` equals `scrollY` up to `3.5h` and `3.5h` beyond; `l1` likewise with `1.5h` |
| ParallaxScroll.FrontLayerWindow | components/hero/hooks/useParallaxScroll.ts:57 | `l4` is 0 up to `1.5h`, `scrollY - 1.5h` between `1.5h` and `3h`, and `1.5h` from `3h` on |
| ParallaxScroll.LastLayerShifted | components/hero/hooks/useParallaxScroll.ts:57-58 | `l5` at `scrollY` is `l4` at `scrollY - h`: the same window one screen later |
| ParallaxScroll.LayersMonotone | components/hero/hooks/useParallaxScroll.ts:53-58 | every layer value is non-decreasing in `scrollY` |
| ParallaxScroll.ScanActiveSection | components/hero/hooks/useParallaxScroll.ts:73-79 | the `for ... break` loop returns the same id as the scan function `ActiveSection` |
| ParallaxScroll.ActiveSectionSpec | components/hero/hooks/useParallaxScroll.ts:73-79 | the active section is the id of the first section with `scrollY < h * offset`, and 'home' when none matches |
| ParallaxScroll.InfiniteLastAlwaysMatches | components/hero/hooks/useParallaxScroll.ts:73-79 | when the list ends with the `Infinity` threshold and `h > 0`, some section is the first match |
| ParallaxScroll.PageSections | components/hero/ParallaxPortfolio.tsx:46-51 | with the page's list: 'home' below `0.8h`, 'about' below `1.8h`, 'work' below `2.8h`, 'contact' from `2.8h` on |
| ParallaxScroll.DefaultSections | components/hero/hooks/useParallaxScroll.ts:23-28 | with the hook's default list: 'home' below `0.8h`, 'about' below `2h`, 'work' below `3.4h`, 'contact' from `3.4h` on |
| ParallaxScroll.NavListsDiffer | components/hero/ParallaxPortfolio.tsx:46-51 | at `1.9h` the page's list reports 'work' while the hook's default list reports 'about' |
| ParallaxScroll.ZeroHeightIsHome | components/hero/hooks/useParallaxScroll.ts:73-79 | with window height 0 no threshold, not even `Infinity`, matches, and the section is 'home' |
| ParallaxScroll.ScrollHook.constructor | components/hero/hooks/useParallaxScroll.ts:30-36 | the hook starts on 'home', hides the scroll-to-top button, is not scrolling, has no frame, has written nothing and has no listener |
| ParallaxScroll.ScrollHook.UpdateLayers | components/hero/hooks/useParallaxScroll.ts:38-93 | a missing element changes nothing; otherwise `--scroll-y`, `--window-height` and the six layer values are written, `activeSection` is the scan's result, `showScrollTop` is `scrollY > 0.5h`, a state update is issued exactly for each value that changed, the scroll position is recorded and `isScrolling` is cleared; frames and listener are untouched |
| ParallaxScroll.ScrollHook.Scroll | components/hero/hooks/useParallaxScroll.ts:95-106 | without the listener, or while `isScrolling`, nothing changes; otherwise `isScrolling` is raised, the old frame is cancelled and exactly one new frame is pending; no state or property changes |
| ParallaxScroll.ScrollHook.Frame | components/hero/hooks/useParallaxScroll.ts:104 | running the pending frame leaves no frame pending and has exactly the effect of `updateParallaxLayers` on the state, the properties and the update log |
| ParallaxScroll.ScrollHook.Mount | components/hero/hooks/useParallaxScroll.ts:108-115 | without a container nothing changes; otherwise one direct `updateParallaxLayers`, with its whole effect, then the listener is attached; no frame is requested |
| ParallaxScroll.ScrollHook.Unmount | components/hero/hooks/useParallaxScroll.ts:117-122 | the cleanup of an attached listener detaches it and cancels the pending frame; the refs, the state values, the properties and the log stay as they were |
| ParallaxScroll.PageScrollScenario | components/hero/hooks/useParallaxScroll.ts:95-123 | on the page's list, mounting at the top of a 1000-pixel window, scrolling to 1900 and running the frame reports 'work', shows the scroll-to-top button, issues exactly those two state updates and releases the throttle |
| ParallaxScroll.AtMostOnePending | components/hero/hooks/useParallaxScroll.ts:97-105 | under the hook's invariant at most one frame is ever pending |
| ParallaxScroll.OffsetOf | components/hero/hooks/useParallaxScroll.ts:144-145 | for a pointer inside the window the offset lies in `[-10, 10] x [-5, 5]` |
| ParallaxScroll.MouseHook.constructor | components/hero/hooks/useParallaxScroll.ts:132-133 | no frame is pending and the last position is `(0, 0)` |
| ParallaxScroll.MouseHook.MouseMove | components/hero/hooks/useParallaxScroll.ts:135-143 | without a root, or while a frame is pending, the event is ignored; otherwise one frame is requested to read this event |
| ParallaxScroll.MouseHook.Frame | components/hero/hooks/useParallaxScroll.ts:143-158 | the offset is written and remembered only when one coordinate moved by more than 0.1, and the pending id is cleared |
| ParallaxScroll.MouseHook.Unmount | components/hero/hooks/useParallaxScroll.ts:163-169 | cleanup cancels the pending frame and keeps the ref |
| StarsStatic.MakeStar | components/hero/components/StarsStatic.tsx:13-21 | star `i` has id `i`, left in [0, 100), top in [0, 50), size in [1.5, 3), duration in [2.5, 4.5), delay in [0, 4) and brightness in [0.4, 1) |
| StarsStatic.Stars | components/hero/components/StarsStatic.tsx:12-22 | exactly 100 stars, star `i` at index `i`, each with left, top, size and brightness within the ranges above |
| StarsStatic.Style | components/hero/components/StarsStatic.tsx:31-41 | the element is as wide and high as the star, its glow radius is `4 + size` (so in [5.5, 7)), and its colours are the theme's |
| StarsStatic.ThemeOnlyColours | components/hero/components/StarsStatic.tsx:31-41 | two themes give a star the same style apart from its colour and glow colour |
| AtmosphericParticles.Count | components/hero/components/AtmosphericParticles.tsx:26 | 35 particles exactly in summer, 60 otherwise |
| AtmosphericParticles.MakeParticle | components/hero/components/AtmosphericParticles.tsx:27-37 | particle `i` has id `i`; left in [0, 100), size in [1.5, 4) in summer and [1.5, 4.5) otherwise, duration in [8, 18), delay in (-20, 0], drift in [-15, 15), opacity in [0.3, 0.7), rotation in [0, 360); blurred exactly when `i % 6 == 0` |
| AtmosphericParticles.Particles | components/hero/components/AtmosphericParticles.tsx:25-38 | the list has `Count(season)` particles, particle `i` at index `i`, blurred exactly at multiples of 6 |
| AtmosphericParticles.ParticleLook | components/hero/components/AtmosphericParticles.tsx:40-72 | petals use pink shade `id % 4` in their gradient, leaves use leaf colour `id % 4`, and exactly petals and leaves are rotated by the particle's rotation |
| AtmosphericParticles.PaletteCycles | components/hero/components/AtmosphericParticles.tsx:48-67 | the palette colour depends only on `id % 4`, and the four leaf colours are distinct |
| AtmosphericParticles.Animation | components/hero/components/AtmosphericParticles.tsx:74 | the animation is 'floatUp' exactly in summer and 'fallDown' otherwise |
| AtmosphericParticles.StyleOf | components/hero/components/AtmosphericParticles.tsx:85-95 | width is the size; height is `1.4 * size` for leaves and the size otherwise; the drift cycle lies in [4.8, 10.8) seconds |
| AtmosphericParticles.LeavesAreTall | components/hero/components/AtmosphericParticles.tsx:89 | every generated leaf is taller than it is wide |
| SvgLayers.Illumination | components/hero/components/SVGLayers.tsx:16-17 | for a phase in [0, 1) the illumination lies in [0, 1], is 1 only at phase 0.5 and 0 only at phase 0 |
| SvgLayers.IlluminationSymmetric | components/hero/components/SVGLayers.tsx:17 | phases `p` and `1 - p` are equally lit |
| SvgLayers.ShadowOffset | components/hero/components/SVGLayers.tsx:19-21 | the shadow offset lies in (-60, 60] |
| SvgLayers.WaningMirrorsWaxing | components/hero/components/SVGLayers.tsx:19-21 | the waning offset at `1 - p` is the negated waxing offset at `p` |
| SvgLayers.HaloOpacity | components/hero/components/SVGLayers.tsx:63 | the halo opacity lies in [0.5, 1] and is 1 only at the full moon |
| SvgLayers.ShadowFor | components/hero/components/SVGLayers.tsx:95-103 | the ellipse is present exactly below 98% illumination; it sits at `cx + offset`, `cy`, with `ry = r + 5` and `rx` in [49.6, 74.4] |
| SvgLayers.Shadow | components/hero/components/SVGLayers.tsx:95-103 | the moon's shadow is present exactly below 98% illumination, with `rx` in [49.6, 74.4], `ry = 67` and centre within 60 of the disc's |
| SvgLayers.LitWidth | components/hero/components/SVGLayers.tsx:95-103 | the uncovered part of the disc's horizontal diameter lies between 0 and the diameter |
| SvgLayers.QuarterMoonDrawnDark | components/hero/components/SVGLayers.tsx:19-21 | as written, the half-lit moon shows no lit width and the new moon shows 47.6 |
| SvgLayers.CorrectedShadowOffset | components/hero/components/SVGLayers.tsx:19-21 | the corrected offset lies in [-120, 120] |
| SvgLayers.CorrectedLitWidth | components/hero/components/SVGLayers.tsx:95-103 | with the corrected offset the lit width is `min(124, max(0, 144.8 * ill - 12.4))`, or 124 from 98% illumination on |
| SvgLayers.CorrectedLitGrows | components/hero/components/SVGLayers.tsx:19-21 | with the corrected offset the lit width never shrinks as illumination grows; it is 0 at the new moon and the whole diameter at the full moon |
| SvgLayers.At | components/hero/components/SVGLayers.tsx:138-140 | an index into the colour list is defined exactly below its length |
| SvgLayers.AuroraStops | components/hero/components/SVGLayers.tsx:132-141 | the layer renders exactly when `aurora` is set and colours exist, and then has three stops |
| SvgLayers.AuroraStopsDefined | components/hero/components/SVGLayers.tsx:133-140 | over the four themes the aurora renders exactly in winter, and all three stops index existing colours |
| SvgLayers.ForestTree | components/hero/components/SVGLayers.tsx:254-258 | tree `i` has `x` in `[32i - 5, 32i + 10)`, ground line `680 - 40 sin((x + 80) * 0.005)`, `h` in [25, 45), `w` in [10, 16) and seed `7.9i` |
| SvgLayers.Forest | components/hero/components/SVGLayers.tsx:252-260 | the forest has exactly 45 trees, tree `i` at index `i` |
| SvgLayers.ForestOrdered | components/hero/components/SVGLayers.tsx:254 | the trees stand strictly left to right in list order, from `-5` to before `1440` |
| SvgLayers.TreeOpacity | components/hero/components/SVGLayers.tsx:273 | every tree's opacity lies in [0.85, 1) |
| SvgLayers.Accent | components/hero/components/SVGLayers.tsx:278 | the accent copy is shifted by 3, keeps the ground line, has seed `+100` and height in [21.25, 38.25) and width in [8, 12.8) for a forest tree |
| SvgLayers.EveryFourthFromStart | components/hero/components/SVGLayers.tsx:277 | the index filter `i % 4 === 0` keeps `ceil(n / 4)` elements, element `j` being original element `4j` |
| SvgLayers.AccentLayer | components/hero/components/SVGLayers.tsx:277-279 | the accent layer has exactly 12 trees, the `j`-th being the accent copy of forest tree `4j` |
| SvgLayers.ForestSizesPositive | components/hero/components/SVGLayers.tsx:256-257 | every forest and accent tree has positive height and width |
| SvgLayers.OutlineWellShaped | components/hero/utils/generateTree.ts:11-34 | a tree of positive height and width drawn from its own seed has 4 or 5 layers, `4 * layers + 2` vertices, and every notch inside and below its tip |
| SvgLayers.ForestOutline | components/hero/components/SVGLayers.tsx:273 | each forest tree's outline has 4 or 5 layers and `4 * layers + 2` vertices, and every notch lies inside and below its tip |
| SvgLayers.AccentOutline | components/hero/components/SVGLayers.tsx:277-279 | the `k`-th accent tree is the copy of forest tree `4k`, and its outline has 4 or 5 layers, `4 * layers + 2` vertices, and every notch inside and below its tip |
| SeasonThemes.Theme | components/hero/config/seasonThemes.ts:40-176 | the theme table is total over the four seasons and every star intensity is positive |
| SeasonThemes.Icon | components/hero/config/seasonThemes.ts:178-183 | the icon table is total and no icon is empty |
| SeasonThemes.IconsDistinct | components/hero/config/seasonThemes.ts:178-183 | two seasons have the same icon only when they are the same season |
| SeasonThemes.AllSeasonsExactlyOnce | components/hero/config/seasonThemes.ts:185 | `SEASONS` has four entries, each season exactly once, in the order winter, spring, summer, autumn |
| SeasonThemes.WinterStopsWellFormed | components/hero/config/seasonThemes.ts:43-47 | the winter sky starts at '0%', ends at '100%' and its offsets strictly increase |
| SeasonThemes.SpringStopsWellFormed | components/hero/config/seasonThemes.ts:78-82 | the spring sky starts at '0%', ends at '100%' and its offsets strictly increase |
| SeasonThemes.SummerStopsWellFormed | components/hero/config/seasonThemes.ts:112-115 | the summer sky starts at '0%', ends at '100%' and its offsets strictly increase |
| SeasonThemes.AutumnStopsWellFormed | components/hero/config/seasonThemes.ts:145-148 | the autumn sky starts at '0%', ends at '100%' and its offsets strictly increase |
| SeasonThemes.SkyStopsWellFormed | components/hero/config/seasonThemes.ts:40-176 | every theme's sky-gradient stops are well formed |
| SeasonThemes.AuroraOnlyInWinter | components/hero/config/seasonThemes.ts:40-176 | `aurora` is set exactly in the winter theme, whose aurora colour list exists and has 3 entries |
| SeasonThemes.StarIntensityInRange | components/hero/config/seasonThemes.ts:52-153 | every theme's star intensity lies in (0, 1] |
| ErrorBoundaryModel.DerivedStateFromError | components/ErrorBoundary.tsx:25-27 | after an error the state is flagged and records that error |
| ErrorBoundaryModel.Retried | components/ErrorBoundary.tsx:34-36 | retry clears the flag and the error, whatever the prior state |
| ErrorBoundaryModel.RenderBranches | components/ErrorBoundary.tsx:38-68 | children exactly without an error; the fallback exactly with an error and a truthy fallback; the default panel exactly with an error and a falsy fallback |
| ErrorBoundaryModel.FalsyFallbackShowsPanel | components/ErrorBoundary.tsx:40-44 | a fallback of `0`, `""` or `undefined` shows the default panel |
| ErrorBoundaryModel.ErrorThenRetryRendersChildren | components/ErrorBoundary.tsx:34-36 | after an error the children are not shown, and after a retry they are shown again |
| ErrorBoundaryModel.ErrorBoundary.constructor | components/ErrorBoundary.tsx:20-23 | the boundary starts without an error |
| ErrorBoundaryModel.ErrorBoundary.Catch | components/ErrorBoundary.tsx:25-27 | a caught error replaces the state with the derived one |
| ErrorBoundaryModel.ErrorBoundary.HandleRetry | components/ErrorBoundary.tsx:34-36 | the retry button replaces the state with the cleared one |
| ErrorBoundaryModel.ErrorBoundary.Render | components/ErrorBoundary.tsx:38-68 | render returns the branch `RenderOf` selects for the current state and props |

## Findings

| source | as written | input that shows it | evidently intended | confidence | as-written member | corrected member |
|---|---|---|---|---|---|---|
| components/hero/components/SVGLayers.tsx:19-21 | the shadow offset is `±((1 - illumination) * 120 - 60)`, so the shadow is centred on the disc at half illumination | phase 0.25 (illumination 0.5): offset 0 and `rx = 62 = r`, so the shadow covers the whole horizontal diameter; phase 0 (new moon) leaves 47.6 of it lit | the visible lit part grows with illumination: dark at the new moon, whole at the full moon | medium, not executed | SvgLayers.QuarterMoonDrawnDark | SvgLayers.CorrectedLitGrows |

The corrected offset `±illumination * 120` (`SvgLayers.CorrectedShadowOffset`) starts centred on the disc and slides off it as the moon fills. Lit width is measured along the disc's horizontal diameter (`SvgLayers.LitWidth`).

## Left out

- DOM and browser scheduling are not modelled: `style.setProperty`, `requestAnimationFrame`/`cancelAnimationFrame` (frames are explicit calls), `addEventListener`, the window's size (an input), and `useWindowHeight`'s resize debounce with `setTimeout` (useParallaxScroll.ts:177-201).
- `Math.sin` is a parameter with no properties: `seededRandom` and the forest's ground line make no claim about distribution or concrete values. IEEE-754 rounding, `NaN` and infinities other than the `Infinity` threshold are not modelled.
- Number-to-string formatting is not modelled: the SVG path text of `generateTree` (with its closing `Z`, the last-to-first edge of the vertex sequence) and the CSS value strings are values here, not text.
- components/hero/utils/moonPhase.ts is not part of this model. It reads the clock, so the moon's phase is an input in [0, 1).
- Markup-only rendering is not modelled: the SVG markup of the sky, mountains, hills, mist and foreground, the page, its sections, the season controls and the app shell.
- components/hero/hooks/useScrollAnimation.ts is not part of this model: DOM traversal only.
- React semantics are not modelled: memoisation, re-render scheduling, stale closures (state updates take effect at once here) and `console.error` in `componentDidCatch`.
- ParallaxScroll.ScrollHook.Frame: it requires that the frame it runs is pending, which the browser guarantees for a requested, uncancelled frame.
- ParallaxScroll.MouseHook.Frame: it requires a window of positive width and height. The source divides by them and a zero-sized window is not modelled.
- The `default` arm of `getParticleStyle` is unreachable for the four-valued `Season` and is not modelled.
- `generateTree`'s determinism (equal arguments give equal outlines) holds because `Outline` is a function of its arguments, so there is no separate lemma for it.
