# Rock Vegas site: orbit logo and home-page logic, modelled in Dafny

This project models the logic of the Rock Vegas studio website. Most of the site is markup. The parts with real logic are:

- **The orbit-logo hover component** (`public/gemini3/spaceLogo.tsx`). At mount it draws one orbit configuration per logo path: radius, revolution duration, direction, initial angle and tumble speed. It keeps a set of "activated" path indices. Entering a path adds that path's index. Leaving the container empties the set. Each path's outer group is given the rotation origin (110px, 22.35px), the coordinates of the view-box centre. Whenever a path's index is in the set, its group turns a full revolution and its inner path flies out to the orbit radius.
- **The home page** (`pages/index.js`). It lays out twenty decorative sparkles from their index alone. Its `ProjectCard` decides which links a card shows from its `caseStudyLink` and `link` props.

Files and modules:

- `orbit_geometry.dfy` (`OrbitGeometry`): the view box and its centre, the rotation origin, the orbit configuration and how it is derived from the random draws.
- `motion_targets.dfy` (`MotionTargets`): the variant names, the targets of the outer group (`orbitVariants`) and of the inner path (`flyOutVariants`), and one rendered frame of all paths.
- `activation.dfy` (`Activation`): the activation set's transitions as pure functions on `set<nat>`, and what the set is after any sequence of pointer events.
- `space_logo.dfy` (`SpaceLogoComponent`): the mounted component as a class. `paths` and `configs` are `const` because they are computed once at mount. `activeIndices` is a field that the two handler methods replace. A small client replays a three-path hover session.
- `sparkles.dfy` (`Sparkles`): the sparkle positions and timings.
- `project_card.dfy` (`ProjectCard`): the card's link-selection rule.

Randomness is injected. Each `Math.random()` becomes a real draw `r` with `0 <= r < 1`. The configuration map makes five draws per path, in source order: radius, duration, direction, angle, tumble. So path k uses draws `5k .. 5k+4`. The fly-out scale calls `Math.random()` again on every render. The model passes those values in as a separate sequence, `scaleDraws`.

The repository also holds an earlier variant of this component, `_Docs/Logo Ideas/orbital-logo/components/spaceLogo.tsx`. The model follows `public/gemini3/spaceLogo.tsx`, which differs from that variant as follows:

- The radius range is [60, 200), the duration range [4, 12) and the tumble range [2, 7). The earlier variant draws from [60, 160), [5, 15) and [2, 6).
- The earlier variant parses each path's starting x and re-centres the path before pushing it out (lines 19-20 and 72-73 there). This code does not. Its fly-out target is simply `x = radius`.
- The earlier variant nests three layers: a swirl to the initial angle, a spin and the fly-out (lines 141-161 there). This code has two: the outer group's rotation and the inner path's fly-out. `initialAngle` is computed but no variant uses it. The model derives it and proves its bound, and nothing else reads it.
- The rotation origin (110px, 22.35px) is set only on the outer group. The inner path has no origin of its own in this code.
- `handleMouseEnterPath` adds whatever index it is given to the set. Only the indices 0 .. |paths|-1 are ever read back, one per rendered path. The model adds the index, as the code does.

JavaScript truthiness is modelled as written. An empty string prop counts as missing, just as an absent one does.

## Model

| member | source | states |
|---|---|---|
| OrbitGeometry.GroupOrigin | public/gemini3/spaceLogo.tsx:105-106 | the origin every path's group is given, (110, 22.35), is the centre of the 0 0 220 44.7 view box, and it is the same for every path |
| OrbitGeometry.Derive | public/gemini3/spaceLogo.tsx:19-24 | for draws in [0,1): radius in [60,200), duration in [4,12), initial angle in [0,360), tumble speed in [2,7); direction is 1 exactly when the direction draw exceeds 0.5 and -1 exactly otherwise |
| OrbitGeometry.Configs | public/gemini3/spaceLogo.tsx:17-26 | exactly one configuration per logo path, each within the documented ranges |
| OrbitGeometry.ConfigOfPath | public/gemini3/spaceLogo.tsx:17-18 | configuration k belongs to path k: it is derived from the k-th block of five draws |
| OrbitGeometry.ConfigDirection | public/gemini3/spaceLogo.tsx:21 | path k orbits in direction +1 exactly when its direction draw exceeds 0.5, and -1 otherwise |
| MotionTargets.OrbitVariant | public/gemini3/spaceLogo.tsx:50-65 | the idle group rotation is 0; the orbiting rotation is +360 for direction 1 and -360 otherwise |
| MotionTargets.FlyOutVariant | public/gemini3/spaceLogo.tsx:68-100 | idle: x = 0, y = 0, scale 1, opacity 1, rotate 0, white; orbit: x = radius, y = 0, scale in [0.6,1.0), tumble 360, opacity 0.9, blue tint |
| MotionTargets.Frame | public/gemini3/spaceLogo.tsx:45-116 | one view per path, in path order, carrying that path's data and the shared centre origin; active paths get the orbit targets of their own configuration and inactive ones the idle targets |
| MotionTargets.SharedOrigin | public/gemini3/spaceLogo.tsx:105-106 | any two paths of a frame are given the same origin values, (width/2, height/2) of the view box |
| MotionTargets.ActivePathOrbitBounds | public/gemini3/spaceLogo.tsx:82-84 | with configurations drawn at mount, an active path flies out to a distance in [60,200), and its group turns +360 or -360, +360 exactly when its direction draw exceeds 0.5 |
| Activation.StepEffect | public/gemini3/spaceLogo.tsx:28-38 | entering path i makes i active and keeps exactly the old members besides; leaving leaves no path active |
| Activation.EnterIdempotent | public/gemini3/spaceLogo.tsx:28-34 | entering an already active path changes nothing, and entering twice is the same as entering once |
| Activation.EnterCommutes | public/gemini3/spaceLogo.tsx:28-34 | the order in which two paths are entered does not change the set |
| Activation.RunMembership | public/gemini3/spaceLogo.tsx:28-38 | after any sequence of events, i is active exactly when it was entered after the last leave, or it was active before and the pointer never left |
| Activation.LeaveClearsAll | public/gemini3/spaceLogo.tsx:36-38 | after any events that end with leaving the container, no index is active, whatever the prior state |
| SpaceLogoComponent.SpaceLogo.constructor | public/gemini3/spaceLogo.tsx:8-26 | mounting derives one in-range configuration per path from the draws and starts with an empty activation set |
| SpaceLogoComponent.SpaceLogo.HandleMouseEnterPath | public/gemini3/spaceLogo.tsx:28-34 | the set becomes the old set plus the index; paths and configurations stay as they are |
| SpaceLogoComponent.SpaceLogo.HandleMouseLeaveContainer | public/gemini3/spaceLogo.tsx:36-38 | the set becomes empty; paths and configurations stay as they are |
| SpaceLogoComponent.SpaceLogo.Render | public/gemini3/spaceLogo.tsx:45-116 | one view per path; a path orbits exactly when it is active, and an active path flies out to a distance in [60,200) |
| SpaceLogoComponent.HoverThreePaths | public/gemini3/spaceLogo.tsx:28-47 | with three paths mounted: active flags are [false,true,false] after entering 1, [true,true,false] after entering 0, and all false after leaving |
| Sparkles.Delay | pages/index.js:215 | the delay is in [0,5) seconds and is what remains of 0.3i after whole multiples of 5 are taken off |
| Sparkles.Duration | pages/index.js:216 | the duration is in [3,7) seconds: 3 plus what remains of 0.5i after whole multiples of 4 are taken off |
| Sparkles.SparkleAt | pages/index.js:211-216 | each sparkle's top and left lie in [0,100) percent, its delay in [0,5) and its duration in [3,7), and they depend on the index alone |
| Sparkles.AllSparkles | pages/index.js:211 | exactly 20 sparkles are produced, and sparkle i is the one for index i |
| Sparkles.SparklesInsideContainer | pages/index.js:213-214 | every sparkle of the page has both offsets in [0,100) percent |
| Sparkles.SparkleStep | pages/index.js:213-214 | consecutive sparkles step 37 percent down and 53 percent right, modulo 100 |
| Sparkles.SparklesDistinct | pages/index.js:213-214 | no two of the twenty sparkles share a top offset, and no two share a left offset |
| ProjectCard.CardLinks | pages/index.js:75-151 | a case study link makes "View Project" go to the case study; otherwise a link makes it go to the link; "Live App" appears exactly when both are present and goes to the link; "Coming Soon" appears exactly when neither is present, and then alone; at most one "View Project" |
| ProjectCard.CardCases | pages/index.js:75-151 | the exact links for each of the four combinations of present and absent props |
| ProjectCard.EmptyIsAbsent | pages/index.js:75-149 | an empty-string prop yields the same card as a missing prop |

## Left out

- Animation timing, easing and springs: the `transition` blocks of both variants and of the home page. They are continuous-time behaviour inside the animation library. Only target values are modelled.
- `Math.random()` itself. It is replaced by injected draws in [0,1). Nothing probabilistic, such as how fair the direction choice is, is stated.
- Memoisation (`useMemo` with `[]`) and React's re-render scheduling. Configurations are modelled as `const` fields set once by the constructor.
- How the animation library resolves a px origin on an SVG group is not modelled: whether (110px, 22.35px) is taken in view-box coordinates or relative to the group's own bounding box. The code sets no `transformBox`. The model records only the origin values the code sets.
- SVG rendering, hit-testing and the pointer-event wiring. The logo path strings come from a constants module that is not part of this model, so they are opaque `PathData` values.
- JavaScript numbers are IEEE doubles. The model uses exact reals for the orbit configurations and the scale, so rounding at the edges of the ranges is not modelled.
- Sparkles.Delay and Sparkles.Duration: these compute `(i * 0.3) % 5` and `3 + ((i * 0.5) % 4)` exactly, in tenths and halves. The code uses floating-point products, which may differ from these values in the last bits.
- Scroll transforms, the background animation, page metadata, styling and static copy of the home page.
- `pages/case-studies/trading-journey.js`: static markup with no logic.
- The unused `initialAngle`: it is derived and bounded, but no variant of this component reads it, so no motion target depends on it.
