# A retro-futurist brochure site, modelled in Dafny

The site is a React/Next.js brochure. Most of it is markup and styling. This
project models the parts that carry logic, in four groups:

- **The contact form** (`ContactForm`). It validates three fields with exact
  string rules and runs a small submit state machine: idle, submitting,
  success or error, and back to idle when a five-second timer fires. The form
  is a class whose fields are the component's state. The network reply and
  the timer are explicit inputs.
- **The section dividers** (`SectionDivider`, `CurveDivider`,
  `MountainDivider`, `LayoutSectionDivider`, sharing `SvgPath`). Each is a
  pure generator of SVG paths in a box 1440 units wide. Paths are lists of
  commands over exact reals. For every kind and height, the inverted path is
  proved to be the vertical mirror (y ↦ H − y) of the upright one, and every
  coordinate is proved to lie in the box. The colour, gradient and fill
  choices are proved as decision tables.
- **Decorative geometry and animation parameters**:
  - `StarburstDecoration`: the vertex loop;
  - `OrbitAnimation` and `TeamMember`: orbit keyframes, defaults and sizing;
  - `StarField`, `ParallaxBackground` and `CometTrail`: random stars, star
    layers and comet placement.

  Every `Math.random()` value is a parameter in [0, 1), and the proofs give
  ranges, counts and partitions. Positions are kept in polar form (a radius
  and an angle), so cosine and sine are never evaluated.
- **Small rule helpers**:
  - `RetroLoader`: the countdown cycle and the variant fallback;
  - `Timeline`: colour cycling and left/right alternation;
  - `NavLink`: link classification and render-branch precedence;
  - `Portfolio`: the tilt rule and the featured/non-featured split.

`Wrappers` holds `Option`. `Sequences` holds an order-preserving subsequence
predicate with its lemmas. `Utf16` holds the first UTF-16 code unit of a
string, which both the portfolio tilt and the team member's initial read.

Where a component keeps state that its effects or handlers update, it
becomes a class:
- `ContactForm.ContactFormState`;
- `CometTrail.CometTrailState`;
- `StarField.StarFieldCanvas`;
- `ParallaxBackground.ParallaxBackgroundState`;
- `OrbitAnimation.OrbitAnimationState`;
- `RetroLoader.CountdownState`.

Where the source appends in a loop, the model is a method with loop
invariants that is proved against a specification function:
- `StarburstDecoration.CreateStarburstPoints`;
- `StarField.GenerateStars`;
- `ParallaxBackground.GenerateStars`;
- `ParallaxBackground.GetStarLayers`.

Modelling conventions:
- An optional string prop that is absent is modelled as `""`, since both are
  falsy in every use.
- An optional number that is absent is `None`.
- A `matchMedia` answer is a boolean parameter.

A resize does not regenerate the stars. The resize handler
(components/animations/StarField.tsx:23-26) only reassigns the canvas size,
and the star list is made once, at mount (StarField.tsx:32-44).
`StarField.StarFieldCanvas.Resize` therefore keeps the stars and the frame
counter unchanged.

## Model

| member | source | states |
|---|---|---|
| ContactForm.LeadingWhitespace | components/molecules/ContactForm.tsx:34 | The leading run that `trim()` removes: every character in it is whitespace, and the next one is not. |
| ContactForm.TrailingWhitespace | components/molecules/ContactForm.tsx:34 | The trailing run that `trim()` removes, stated the same way from the end. |
| ContactForm.TrimBounds | components/molecules/ContactForm.tsx:34 | The kept slice: only whitespace lies outside it, its ends are not whitespace, and it is empty exactly when the value is all whitespace. |
| ContactForm.Trim | components/molecules/ContactForm.tsx:34-36 | `trim()`: no longer than the input, empty iff the input is all whitespace, and otherwise starts and ends with non-whitespace. |
| ContactForm.TrimKeeps | components/molecules/ContactForm.tsx:34-36 | A value whose first `lo` and last characters from `hi` on are whitespace, with non-whitespace at `lo` and `hi − 1`, trims to exactly the slice between. |
| ContactForm.IndexOf | components/molecules/ContactForm.tsx:43 | The first occurrence of a character, or None exactly when it does not occur. |
| ContactForm.CleanSlices | components/molecules/ContactForm.tsx:43 | A slice of a value with no whitespace and no '@' has none either. |
| ContactForm.EmailMatchesSound | components/molecules/ContactForm.tsx:43 | When the executable matcher accepts a value, the value has the anchored shape `[^\s@]+@[^\s@]+\.[^\s@]+`. |
| ContactForm.EmailMatchesComplete | components/molecules/ContactForm.tsx:43 | Any split into three non-empty clean parts around '@' and '.' is accepted by the matcher. |
| ContactForm.EmailMatchesIff | components/molecules/ContactForm.tsx:43 | The matcher accepts exactly the values of the anchored pattern. |
| ContactForm.FormData.With | components/molecules/ContactForm.tsx:61 | Setting a field changes that field to the new value and leaves the other two unchanged. |
| ContactForm.FieldErrorSpec | components/molecules/ContactForm.tsx:34-52 | A field has no error iff it passes its rule (trimmed name at least 2, email pattern on the raw value, trimmed message at least 10); an all-whitespace value gets "X is required"; otherwise the only possible error is the length or format message. So each field has at most one error. |
| ContactForm.ValidateSpec | components/molecules/ContactForm.tsx:30-55 | The new error map has a key exactly for the failing fields, each holding that field's message. |
| ContactForm.NoteSpec | components/molecules/ContactForm.tsx:35-51 | Recording an error adds that field's key with its message and leaves the other keys unchanged; recording no error changes nothing. |
| ContactForm.FailingFieldsKeyed | components/molecules/ContactForm.tsx:30-55 | A field is a key of the new map iff it fails its rule. |
| ContactForm.ValidIff | components/molecules/ContactForm.tsx:55 | The map has no keys iff all three fields pass. |
| ContactForm.ClearedKeyKeepsSummary | components/molecules/ContactForm.tsx:64-65 | Clearing a field's error keeps its key, with an undefined value, so the summary condition (some key present) stays true while that field shows no error. |
| ContactForm.ContactFormState.constructor | components/molecules/ContactForm.tsx:19-27 | Three empty fields, an empty error map, not submitting, idle, and no timer pending. |
| ContactForm.ContactFormState.ValidateForm | components/molecules/ContactForm.tsx:30-56 | Replaces the whole error map with the validation of the current data, and returns true iff the new map has no keys. |
| ContactForm.ContactFormState.HandleChange | components/molecules/ContactForm.tsx:59-67 | Updates only the named field. Only that field's error is cleared, and only if it was set. The set of keys is unchanged. |
| ContactForm.ContactFormState.BeginSubmit | components/molecules/ContactForm.tsx:70-78 | Validates, and proceeds iff no field fails. When it proceeds, `isSubmitting` becomes true; when validation fails, `isSubmitting` and `formState` are unchanged. |
| ContactForm.ContactFormState.CompleteSubmit | components/molecules/ContactForm.tsx:80-106 | An ok reply empties all three fields, sets success and starts the five-second timer. A non-ok reply or a thrown error keeps the fields and sets error. `isSubmitting` is false after every outcome. |
| ContactForm.ContactFormState.TimerFires | components/molecules/ContactForm.tsx:96-98 | A pending timer firing sets the form back to idle; no other step sets idle, and the class invariant keeps a timer pending whenever success shows. |
| ContactForm.ContactFormState.ShowSummary | components/molecules/ContactForm.tsx:114 | The summary shows iff the error map has at least one key. |
| ContactForm.ContactFormState.ButtonLabel | components/molecules/ContactForm.tsx:298-299 | The label is "Transmitting..." exactly while submitting. |
| ContactForm.ContactFormState.FieldInvalid | components/molecules/ContactForm.tsx:209-224 | A field is marked invalid only when it holds an error, which also implies that the summary shows. |
| ContactForm.TwoLetterNamePasses | components/molecules/ContactForm.tsx:36-38 | "Jo" passes the name rule. |
| ContactForm.TenCharacterMessagePasses | components/molecules/ContactForm.tsx:50-52 | A message of exactly ten characters passes. |
| ContactForm.NoAtSignFails | components/molecules/ContactForm.tsx:43-44 | "not-an-email" gets the format error. |
| ContactForm.LeadingSpaceEmailFails | components/molecules/ContactForm.tsx:41-44 | " a@b.com" gets the format error, not "required", because the pattern is tested on the untrimmed value. |
| ContactForm.AddressPasses | components/molecules/ContactForm.tsx:43 | "a@b.com" passes. |
| ContactForm.AddressMatches | components/molecules/ContactForm.tsx:44 | "a@b.com" fits the pattern as "a", "@", "b", ".", "com". |
| ContactForm.NewlineMessageRequired | components/molecules/ContactForm.tsx:48-49 | A message of ten newlines trims to empty and gets "Message is required", not the length error. |
| ContactForm.TabNameRequired | components/molecules/ContactForm.tsx:34-35 | A name of two tabs gets "Name is required". |
| ContactForm.TabEmailFails | components/molecules/ContactForm.tsx:41-44 | "a\t@b.com" gets the format error: a tab is whitespace, which `[^\s@]` excludes. |
| ContactForm.PaddedTrim | components/molecules/ContactForm.tsx:50 | Trimming "hi" followed by nine newlines leaves "hi". |
| ContactForm.PaddedShortMessageFails | components/molecules/ContactForm.tsx:48-52 | "hi" padded with nine newlines is eleven characters long but gets the length error, because the rule counts the trimmed value. |
| ContactForm.ExampleFormValidates | components/molecules/ContactForm.tsx:30-55 | A form holding those three passing values validates to the empty map. |
| ContactForm.InvalidEmailBlocks | components/molecules/ContactForm.tsx:74-76 | Whatever the other fields hold, a bad e-mail leaves a key in the map, so submission stops before any request. |
| SvgPath.MirrorCmd | components/atoms/SectionDivider.tsx:35-54 | Mirroring a command keeps its letter and every x, and replaces every y by H − y. |
| SvgPath.MirrorInvolutive | components/atoms/SectionDivider.tsx:35-54 | Mirroring twice gives back the path. |
| SvgPath.MirrorInBox | components/atoms/SectionDivider.tsx:35-54 | A path inside the 1440 by H box stays inside it when mirrored. |
| SectionDivider.HeightValue | components/atoms/SectionDivider.tsx:23-29 | Every height bucket is positive. |
| SectionDivider.Ridge | components/atoms/SectionDivider.tsx:48-54 | The ridge has one line to (60(k+1), H·f_k) for each fraction f_k. |
| SectionDivider.RidgeTablesComplement | components/atoms/SectionDivider.tsx:48-54 | Both ridge kinds have 24 fractions in [0, 1], and each inverted fraction is 1 minus the upright one. |
| SectionDivider.RidgeMirror | components/atoms/SectionDivider.tsx:48-54 | With complementary tables, the inverted ridge path is the mirror of the upright one. |
| SectionDivider.WaveMirror | components/atoms/SectionDivider.tsx:34-37 | The inverted wave is the y ↦ H − y mirror of the upright wave. |
| SectionDivider.CurveMirror | components/atoms/SectionDivider.tsx:42-45 | The inverted curve is the y ↦ H − y mirror of the upright curve. |
| SectionDivider.InvertedIsMirror | components/atoms/SectionDivider.tsx:32-56 | For every kind and bucket, the inverted path equals the upright path with each y replaced by H − y, letters and x values unchanged. |
| SectionDivider.RidgeInBox | components/atoms/SectionDivider.tsx:48-54 | Each upright ridge path lies in the 1440 by H box. |
| SectionDivider.WaveInBox | components/atoms/SectionDivider.tsx:34-37 | The upright wave lies in the 1440 by H box. |
| SectionDivider.UprightInBox | components/atoms/SectionDivider.tsx:32-56 | Every upright path lies in the box. |
| SectionDivider.PathInBox | components/atoms/SectionDivider.tsx:32-56 | Every generated path, inverted or not, satisfies 0 ≤ x ≤ 1440 and 0 ≤ y ≤ H. |
| SectionDivider.PathEnds | components/atoms/SectionDivider.tsx:34-54 | Upright paths start at M(0,0) and inverted ones at M(0,H); every path of a recognised kind ends with Z. |
| SectionDivider.UnrecognizedIsEmpty | components/atoms/SectionDivider.tsx:55-56 | An unrecognised kind gives the empty path. |
| SectionDivider.RidgeShape | components/atoms/SectionDivider.tsx:46-54 | Mountains and atomic paths have 24 ridge vertices at x = 60k, k = 1..24, then two closing lines along the opposite edge, then Z. |
| SectionDivider.RidgePathShape | components/atoms/SectionDivider.tsx:46-54 | For any two 24-entry tables, the ridge path has 28 commands: a move, 24 ridge lines at x = 60k, two closing lines along the opposite edge, then Z. |
| SectionDivider.GetFillColor | components/atoms/SectionDivider.tsx:61-78 | The class is fill-<colour> for the six palette colours and fill-cream for anything else. |
| SectionDivider.ViewBoxMatchesHeight | components/atoms/SectionDivider.tsx:23-29 | Sizes sm, md and lg give 48, 64 and 96, and the viewBox is 1440 by that value. |
| SectionDivider.GradientAndFillAgree | components/atoms/SectionDivider.tsx:81-102 | A gradient is defined iff toColor is set and differs from fillColor; exactly then the fill is `url(#gradient-<fill>-<to>)`. The gradient runs from fillColor to toColor. |
| SectionDivider.SameColorsNoFill | components/atoms/SectionDivider.tsx:83-102 | When toColor equals fillColor there is no gradient, no fill attribute and no fill class. |
| SectionDivider.AbsentToColorUsesClass | components/atoms/SectionDivider.tsx:61-78 | When toColor is absent, only the fill class colours the path, and an unknown colour falls back to fill-cream. |
| CurveDivider.HeightValue | components/atoms/CurveDivider.tsx:19-25 | Its own bucket table equals the atoms section divider's: 48, 64 and 96. |
| CurveDivider.UprightShape | components/atoms/CurveDivider.tsx:31 | The upright path is M(0,0) C(360,0.9H 1080,0.9H 1440,0) L(1440,H) L(0,H) Z. |
| CurveDivider.InvertedIsMirror | components/atoms/CurveDivider.tsx:28-32 | The inverted path is the y ↦ H − y mirror of the upright one. |
| CurveDivider.SameAsSectionDividerCurve | components/atoms/CurveDivider.tsx:28-32 | For every height and inversion, the path is the same as the curve kind of the atoms section divider. |
| CurveDivider.ArchSymmetric | components/atoms/CurveDivider.tsx:30-31 | The arch is symmetric about x = 720: the control points at x = 360 and 1080 share one y, and so do the two ends. |
| CurveDivider.ColorsAndViewBox | components/atoms/CurveDivider.tsx:44-55 | The path is filled with fromColor and the container shows toColor. The viewBox is 1440 by H, and the path lies inside it. |
| MountainDivider.InvertedIsMirror | components/atoms/MountainDivider.tsx:33-42 | The inverted constant is exactly the y ↦ 64 − y mirror of the upright constant. |
| MountainDivider.RidgeVertices | components/atoms/MountainDivider.tsx:36-41 | Both paths have 24 ridge vertices at x = 60k, k = 1..24. |
| MountainDivider.InViewBox | components/atoms/MountainDivider.tsx:28-41 | Every coordinate of both paths lies in the 1440 by 64 viewBox. |
| MountainDivider.StartAndClose | components/atoms/MountainDivider.tsx:36-41 | Upright starts at (0,0) and closes along y = 64; inverted starts at (0,64) and closes along y = 0. |
| MountainDivider.ColorsInBothBranches | components/atoms/MountainDivider.tsx:22-42 | Both branches colour the path with fromColor and the container with toColor. |
| LayoutSectionDivider.ColorChoice | src/components/layout/SectionDivider.tsx:24-31 | Wave is orange, orbital aqua and atomic mustard by default, and a non-empty color prop overrides every variant. |
| LayoutSectionDivider.FlipOnlyRotates | src/components/layout/SectionDivider.tsx:41 | flip gives "rotate(180)" and no flip gives ""; nothing else depends on flip. |
| LayoutSectionDivider.UnrecognizedDrawsWave | src/components/layout/SectionDivider.tsx:70-77 | An unrecognised variant draws the wave path. |
| LayoutSectionDivider.PathFrame | src/components/layout/SectionDivider.tsx:44-85 | Every path starts at M(0,100) and ends with L1440,0 L0,0 Z, and the viewBox is 1440 by 100 for every variant. |
| StarburstDecoration.CreateStarburstPoints | components/atoms/StarburstDecoration.tsx:27-44 | The loop gives 2N vertices and then Z. Only the first is a move. Vertex i has the outer radius when i is even and the inner one when odd, at angle i·π/N. |
| StarburstDecoration.Render | components/atoms/StarburstDecoration.tsx:86-109 | The main burst uses the given radii. A secondary burst with radii 0.3 and 0.8 times inner exists iff secondaryColor is given. The centre circle has radius 0.4 times inner, and its fill follows secondaryColor. |
| StarburstDecoration.NoPointsJustCloses | components/atoms/StarburstDecoration.tsx:31-43 | With no points the path is exactly "Z". |
| StarburstDecoration.VertexCommands | components/atoms/StarburstDecoration.tsx:31-41 | With N > 0 points there are exactly 2N vertex commands: one move followed by 2N − 1 lines. |
| OrbitAnimation.MaxExtent | src/components/interactive/OrbitAnimation.tsx:57-58 | The maximum of 2·distance + size over a non-empty list: an upper bound that one element attains. |
| OrbitAnimation.ContainerSide | src/components/interactive/OrbitAnimation.tsx:57-58 | With no elements `Math.max()` gives −Infinity; otherwise the side is the maximum extent plus 20. |
| OrbitAnimation.InitialAngle | src/components/interactive/OrbitAnimation.tsx:89 | A falsy angle (absent or 0) becomes random · 360, in [0, 360); any other angle is kept. |
| OrbitAnimation.Duration | src/components/interactive/OrbitAnimation.tsx:96 | The duration times the speed is 20; a zero speed gives Infinity (None). |
| OrbitAnimation.Clockwise | src/components/interactive/OrbitAnimation.tsx:99 | An absent value and `true` both give clockwise; only an explicit `false` gives counter-clockwise. |
| OrbitAnimation.Keyframes | src/components/interactive/OrbitAnimation.tsx:141-156 | Five keyframes: the first and last at the initial angle, the middle three at initial + k·(±90) for k = 1..3. |
| OrbitAnimation.OrbitAnimationState.constructor | src/components/interactive/OrbitAnimation.tsx:37 | Reduced motion starts false. |
| OrbitAnimation.OrbitAnimationState.MountEffect | src/components/interactive/OrbitAnimation.tsx:37-40 | The mount effect copies the media query's answer. |
| OrbitAnimation.OrbitAnimationState.Render | src/components/interactive/OrbitAnimation.tsx:55-164 | One orbit path and one element per orbit element. |
| OrbitAnimation.ContainerAndPaths | src/components/interactive/OrbitAnimation.tsx:57-84 | The container is square with the maximum extent plus 20 on each side. Each orbit path has diameter 2·distance, and each element is drawn by its own rule. |
| OrbitAnimation.AnimatedElement | src/components/interactive/OrbitAnimation.tsx:123-164 | An animated element runs the five keyframes, rotates by ±360 with its direction and lasts 20 / speed. Its delay is in [0, 2) and it is centred by −size/2 margins. |
| OrbitAnimation.ReducedMotionIsStatic | src/components/interactive/OrbitAnimation.tsx:102-121 | Under reduced motion each element sits still at its initial position. |
| OrbitAnimation.ZeroAngleIsRandomised | src/components/interactive/OrbitAnimation.tsx:89 | An explicit initial angle of 0 is replaced by a random angle in [0, 360). |
| TeamMember.OrDefault | src/components/about/TeamMember.tsx:88-91 | `value \|\| fallback`: the result is the fallback or the given value; an absent or zero value gives the fallback, any other value is kept, and a non-zero fallback never yields 0. |
| TeamMember.OrDefaultIdempotent | src/components/about/TeamMember.tsx:88-91 | Defaulting an already defaulted value again changes nothing. |
| TeamMember.RenderPhoto | src/components/about/TeamMember.tsx:74-83 | The image shows iff photoUrl is given. Otherwise `name.charAt(0)` shows: nothing for an empty name, the first character when it is in the basic plane, and only its high surrogate when it is not. |
| TeamMember.AstralInitial | src/components/about/TeamMember.tsx:81 | A name starting with U+1F600 shows the lone code unit 0xD83D. |
| TeamMember.Render | src/components/about/TeamMember.tsx:87-147 | One rendered element per orbit element, in order: element i is its spec rendered at index i. |
| TeamMember.RenderedDelays | src/components/about/TeamMember.tsx:87-90 | In the rendered list, an element without its own delay starts 2·i seconds late on both tracks, so the elements set off one after another. |
| TeamMember.Defaults | src/components/about/TeamMember.tsx:88-91 | The defaults are size 36, distance 80, duration 20 and delay 2·index, and they also replace an explicit 0. |
| TeamMember.KeyframesAndCentring | src/components/about/TeamMember.tsx:102-123 | Five keyframes at 0, 90, 180, 270 and 360 degrees on the (defaulted) distance, the first equal to the initial position. Margins of −size/2 centre the element. |
| TeamMember.TracksInStep | src/components/about/TeamMember.tsx:125-138 | The x and y transitions are identical: linear easing with infinite repeat. |
| Timeline.DefaultColor | src/components/about/Timeline.tsx:62-74 | The first six indices take teal, orange, aqua, coral, mustard and gold in that order. |
| Timeline.Render | src/components/about/Timeline.tsx:86-120 | One layout per event. |
| Timeline.DefaultCyclePeriodic | src/components/about/Timeline.tsx:62-74 | The defaults repeat with period 6 and run teal, orange, aqua, coral, mustard, gold. |
| Timeline.DefaultColorInCycle | src/components/about/Timeline.tsx:62-74 | Every default colour is one of the six cycle colours. |
| Timeline.ColorChoice | src/components/about/Timeline.tsx:88 | An explicit event colour overrides the default. |
| Timeline.Alternation | src/components/about/Timeline.tsx:89-111 | Even rows are reversed, with right padding and the reverse tilt; odd rows have left padding and the normal tilt. Neighbouring rows tilt differently. |
| Timeline.LayoutParity | src/components/about/Timeline.tsx:88-111 | The row, padding and tilt classes of an event depend only on whether its index is even. |
| Timeline.TiltAlternates | src/components/about/Timeline.tsx:88-111 | Whatever the two events are, an event at index i and one at i + 1 tilt opposite ways. |
| Timeline.BorderRule | src/components/about/Timeline.tsx:111 | The border is retro-teal for aqua and retro-<colour> otherwise. |
| RetroLoader.RenderLoader | components/atoms/RetroLoader.tsx:38-49 | The rocket is drawn for the rocket variant and for any unrecognised one; the countdown iff its variant is given. The icon size comes from the size table. |
| RetroLoader.Next | components/atoms/RetroLoader.tsx:169 | The step keeps the count in 0..3 and counts down from 1..3. |
| RetroLoader.Show | components/atoms/RetroLoader.tsx:194 | "GO!" shows exactly when the count is 0. |
| RetroLoader.CountdownState.constructor | components/atoms/RetroLoader.tsx:165 | The count starts at 3. |
| RetroLoader.CountdownState.Tick | components/atoms/RetroLoader.tsx:167-173 | Each timer step applies the step function, keeps the count in 0..3 and takes 0 back to 3. |
| RetroLoader.FourStepCycle | components/atoms/RetroLoader.tsx:167-173 | Four steps bring any count in 0..3 back to itself, and no single step leaves it unchanged. |
| RetroLoader.CountdownFromStart | components/atoms/RetroLoader.tsx:165-194 | From the start the display runs 3, 2, 1, "GO!" and back to 3. |
| NavLink.BranchOf | src/components/layout/NavLink.tsx:52-78 | External first ("http" or "mailto:" prefix), then hash ("#" prefix), then the framework link, each taken exactly in its own case. |
| NavLink.Render | src/components/layout/NavLink.tsx:52-78 | Exactly one branch renders, with the given href; only the external anchor opens a new tab. |
| NavLink.ExternalAndHashDisjoint | src/components/layout/NavLink.tsx:32-35 | No href is both external and a hash link. |
| NavLink.HttpsIsExternal | src/components/layout/NavLink.tsx:32 | "https" and "mailto:" links take the external branch. |
| NavLink.MobileOnlyAddsClasses | src/components/layout/NavLink.tsx:42 | The mobile flag only adds classes; the branch, the target and the active styling stay the same. |
| NavLink.ActiveStyling | src/components/layout/NavLink.tsx:29-47 | The link carries the active styling iff pathname or asPath equals its href. |
| Utf16.FirstCodeUnit | components/organisms/Portfolio.tsx:69 | `charCodeAt(0)` is a UTF-16 code unit: the character itself in the basic plane, a high surrogate in [0xD800, 0xDC00) outside it, and NaN (None) exactly for the empty string. |
| Portfolio.GetTilt | components/organisms/Portfolio.tsx:68-71 | Left iff the first code unit is even, right otherwise (NaN included); never 'none'. |
| Portfolio.Select | components/organisms/Portfolio.tsx:127-181 | The filter keeps only projects with the wanted featured flag, each a project of the list. |
| Portfolio.SelectCounts | components/organisms/Portfolio.tsx:127-181 | The two filters together hold each project exactly as often as the list does. |
| Portfolio.SelectKeepsOrder | components/organisms/Portfolio.tsx:127-181 | Each filter keeps list order. |
| Portfolio.GridsPartition | components/organisms/Portfolio.tsx:127-181 | The featured and non-featured grids partition the projects, each in list order. |
| Portfolio.Render | components/organisms/Portfolio.tsx:127-229 | The first grid has, in order, the featured card of each featured project, and the second the grid card of each remaining project. |
| Portfolio.CardRules | components/organisms/Portfolio.tsx:133-215 | Featured cards are never tilted and grid cards always are. A card shows "View Project" iff its project has a link. |
| Portfolio.SiteSection | components/organisms/Portfolio.tsx:26-65 | On the site both projects are featured with a button, and the second grid is empty. |
| Portfolio.SiteTilts | components/organisms/Portfolio.tsx:68-71 | Tilting the site's ids gives right for "encorelando" and left for "lake-wilson"; the empty id gives right. |
| StarField.StarCount | components/animations/StarField.tsx:32 | The count is the floor of width·height / 8000. |
| StarField.MakeStar | components/animations/StarField.tsx:36-43 | Each star has x in [0, w), y in [0, h), size in [0.5, 2.5), opacity in [0.3, 1), speed in [0.003, 0.013) and offset in [0, 2π). |
| StarField.RoomForAStar | components/animations/StarField.tsx:32-35 | A positive count implies a canvas with both sides positive. |
| StarField.ScaleInside | components/animations/StarField.tsx:37-38 | A random fraction of a length lies in [0, length). |
| StarField.GenerateStars | components/animations/StarField.tsx:32-44 | The loop pushes exactly the counted number of stars, each drawn from its own random numbers and inside the ranges. |
| StarField.Twinkle | components/animations/StarField.tsx:59-65 | The drawn alpha is the opacity times (sin·0.5 + 0.5), so it lies in [0, opacity]; position and radius are the star's. |
| StarField.MakeStreak | components/animations/StarField.tsx:70-73 | A shooting star starts in the upper third, has length in [50, 150) and angle π/4. |
| StarField.MaybeStreak | components/animations/StarField.tsx:69 | A shooting star is drawn iff the frame's random number is below 0.005. |
| StarField.StarFieldCanvas.Mount | components/animations/StarField.tsx:23-47 | The canvas takes the window size, the stars are generated once for it, and time starts at 0. |
| StarField.StarFieldCanvas.Resize | components/animations/StarField.tsx:23-29 | A resize changes only the canvas size; the stars and the time are kept. |
| StarField.StarFieldCanvas.DrawFrame | components/animations/StarField.tsx:50-89 | Time goes up by exactly 1. Every star is drawn by its twinkle, and a shooting star appears by the random rule. |
| StarField.HundredStars | components/animations/StarField.tsx:32 | 1000 by 800 gives 100 stars. |
| ParallaxBackground.StarColor | src/components/interactive/ParallaxBackground.tsx:58-72 | The colour is one of the four, and white iff the random number is below 0.7. |
| ParallaxBackground.MakeShape | src/components/interactive/ParallaxBackground.tsx:45-52 | The star has its loop index as id, x and y in [0, 100), size in [1, 4), opacity in [0.3, 0.8) and the colour rule's colour. |
| ParallaxBackground.GenerateStars | src/components/interactive/ParallaxBackground.tsx:43-54 | Exactly starCount stars, with ids 0..starCount − 1 in order, each inside the ranges. |
| ParallaxBackground.LayerOf | src/components/interactive/ParallaxBackground.tsx:81-84 | Foreground iff the random number is below 0.3, background iff it is at least 0.6. |
| ParallaxBackground.GetStarLayers | src/components/interactive/ParallaxBackground.tsx:75-88 | The forEach pushes each star into the layer its random number picks, and each array equals the specification's filter. |
| ParallaxBackground.SnocMultiset | src/components/interactive/ParallaxBackground.tsx:80-85 | Removing the last star removes one copy of it from the multiset. |
| ParallaxBackground.LayerStep | src/components/interactive/ParallaxBackground.tsx:80-85 | The last star is added to its own layer only. |
| ParallaxBackground.LayersPartition | src/components/interactive/ParallaxBackground.tsx:75-88 | Together the three layers hold every star exactly once. |
| ParallaxBackground.LastStarPlaced | src/components/interactive/ParallaxBackground.tsx:81-84 | Together the layers gain exactly one copy of the last star. |
| ParallaxBackground.LayerSizes | src/components/interactive/ParallaxBackground.tsx:75-88 | The layer sizes add up to the number of stars. |
| ParallaxBackground.LayerKeepsOrder | src/components/interactive/ParallaxBackground.tsx:75-88 | Each layer keeps the stars' relative order. |
| ParallaxBackground.OffsetAt | src/components/interactive/ParallaxBackground.tsx:93-103 | A still layer is at 0. A scroll-linked one is at 0 up to scroll 0 and at its maximum from scroll 1000 on. |
| ParallaxBackground.LayerMotion | src/components/interactive/ParallaxBackground.tsx:93-157 | A layer is still iff reduced motion is on. From scroll 1000 its offset is the layer's rate times the parallax factor, or 0 when still. |
| ParallaxBackground.DrawnInBounds | src/components/interactive/ParallaxBackground.tsx:118-170 | Drawing in-range stars keeps each id, position and colour. Sizes and opacities are at most the star's and at least 0.6 times it, so under 4 px and 0.8. A dot keeps its full size iff it is in the foreground. |
| ParallaxBackground.ParallaxBackgroundState.constructor | src/components/interactive/ParallaxBackground.tsx:27-33 | The props are stored, the star list is empty and reduced motion is off. |
| ParallaxBackground.ParallaxBackgroundState.StarEffect | src/components/interactive/ParallaxBackground.tsx:37-55 | The effect copies the media answer and replaces the star list with starCount new stars. |
| ParallaxBackground.ParallaxBackgroundState.Render | src/components/interactive/ParallaxBackground.tsx:90-173 | Every render splits the stars afresh: each layer draws its own filter of the stars at its scale, with its motion. |
| ParallaxBackground.ColorBands | src/components/interactive/ParallaxBackground.tsx:67-71 | The four colour bands are [0, 0.7), [0.7, 0.8), [0.8, 0.9) and [0.9, 1). |
| ParallaxBackground.RenderedOnce | src/components/interactive/ParallaxBackground.tsx:90-171 | A render draws as many dots as there are stars. |
| ParallaxBackground.DefaultOffsets | src/components/interactive/ParallaxBackground.tsx:93-103 | With the default factor 0.3, scroll 1000 puts the layers at 60, 30 and 15. |
| CometTrail.SidePx | src/components/interactive/CometTrail.tsx:41-45 | The side is 24, 32 or 48 pixels, and 32 for md. |
| CometTrail.RandomPlacement | src/components/interactive/CometTrail.tsx:55-57 | The random position has top in 10..79 %, left in 0..19 % and rotation in −15..14 degrees. |
| CometTrail.Corner | src/components/interactive/CometTrail.tsx:68-82 | The four named positions have fixed entries; 'random' and any unlisted value fall through to the random position. |
| CometTrail.MakeTiming | src/components/interactive/CometTrail.tsx:95-101 | Duration and delay are the millisecond props over 1000. The repeat delay is in [2, 7) seconds, and the animation repeats forever. |
| CometTrail.CometTrailState.constructor | src/components/interactive/CometTrail.tsx:32-38 | The random position starts at (10 %, 0 %, −15 deg), with reduced motion off. |
| CometTrail.CometTrailState.SetPosition | src/components/interactive/CometTrail.tsx:65 | A new position prop is stored. |
| CometTrail.CometTrailState.PositionEffect | src/components/interactive/CometTrail.tsx:48-65 | The effect copies the media answer. It recomputes the random position only when the prop is 'random', and otherwise keeps it. |
| CometTrail.CometTrailState.PositionStyles | src/components/interactive/CometTrail.tsx:68-82 | A named corner gives its table entry; otherwise the stored random position is used. |
| CometTrail.CometTrailState.Render | src/components/interactive/CometTrail.tsx:105-124 | Nothing renders iff reduced motion is on; otherwise the comet has the placement, a square of the size's side and the timing. |
| CometTrail.BottomRightCorner | src/components/interactive/CometTrail.tsx:76-77 | Bottom-right is (60 %, 70 %, −25 deg). |
| CometTrail.DefaultTiming | src/components/interactive/CometTrail.tsx:28-29 | The default props give a duration of 6 s and no delay. |
| CometTrail.PlacementBounds | src/components/interactive/CometTrail.tsx:55-80 | Any rendered placement, corner or random, has top in 10..79 %, left in 0..70 % and rotation in −25..14 degrees. |

## Left out

- The fetch POST, its `FormData`/`URLSearchParams` encoding and the
  5000 ms `setTimeout` in the contact form. The reply is an input
  (ok, not ok, thrown). The timer is an explicit `TimerFires` event counted
  by `pendingTimers`, and its delay is not modelled.
- ContactForm.ContactFormState.TimerFires: sets idle whatever the state is
  when the timer fires, because the source's callback does so. Timers still
  pending when the component unmounts are not modelled.
- Lengths and `trim()` work on characters, not UTF-16 code units. A
  character outside the basic plane counts once here and twice in the
  source. The whitespace set is the ECMAScript one listed in
  `ContactForm.IsWhitespace`.
  The first-character reads `charAt(0)` and `charCodeAt(0)` are modelled
  on code units, through `Utf16.FirstCodeUnit`.
- The regular expression is modelled by an equivalent hand-written matcher
  (`EmailMatches`), which is proved equal to the pattern predicate. The
  general regular-expression engine is not modelled.
- The JSX markup, the CSS class strings of the styling tables and the
  animation library's variants are out of scope. This covers framer-motion
  easing, staggering, `whileInView`, spring parameters, the loader's
  rocket and radar sub-animations, and `sizeConfig`'s wrapper and text
  classes. Only the classes that the modelled rules choose are kept.
- Cosine and sine are never evaluated. Starburst and orbit positions are a
  radius and an angle, and twinkle takes the sine value as an input in
  [−1, 1].
- Floating-point arithmetic and the decimal rendering of numbers inside
  path strings. A path here is a list of commands over exact reals, not a
  string. `NaN` and `Infinity` values of numeric props are not modelled, except
  the Infinity of a zero orbit speed, which `OrbitAnimation.Duration`
  models as `None`.
- The canvas drawing calls, `requestAnimationFrame` and its cancellation,
  and the scroll and resize listeners themselves. Each frame and each
  resize is a method call.
- ParallaxBackground.OffsetAt: follows the default of the animation
  library, which is linear between scroll 0 and 1000 and clamped outside.
  The library's other options are not modelled.
- StarburstDecoration.CreateStarburstPoints: `points` is an integer. A
  fractional count, for which the source's loop `i < points * 2` would run
  ⌈2·points⌉ times, is not modelled.
- ParallaxBackground.GenerateStars: `starCount` is an integer. A fractional count, which the source's loop would round up, is
  not modelled.
- Portfolio: only the id, title, colour, link and featured flag of a project
  are kept. Descriptions, categories and images affect no rule.
- Randomness: every `Math.random()` is a parameter in [0, 1). In the
  source, ParallaxBackground draws its layer numbers during render, and
  here they are an input list of the same length as the stars.
